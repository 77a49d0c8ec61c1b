/** Input validation and parsing of the first version (`RentUtils`): ordered
    guard checks over a caller's hash, each with its own message, followed by
    a strict calendar parse of the date strings. */
module RentUtils {
  import opened Wrappers
  import opened CivilDate
  import opened Schedule
  import opened UtilConstants

  /** The values an input hash holds: strings, integers, nil, and the `Date`
      objects that a parse writes back. */
  datatype Value = Str(s: string) | Int(n: int) | Nil | DateValue(d: Date)

  /** A Ruby hash with symbol keys; a key is the symbol's name. */
  type Hash = map<string, Value>

  /** What a call can raise: `InvalidInputError` with its message,
      `Date::Error` from a parse of a date that does not exist, and
      `NoMethodError` when `to_sym` or `match` is sent to a value that lacks it. */
  datatype Error = InvalidInputError(message: string) | DateError | NoMethodError

  const MissingFieldMessage: string := "There is a missing required field in your input."
  const RentAmountMessage: string := "Rent amount should be numerical."
  const FrequencyMessage: string := "Rent frequency is invalid."
  const PaymentMethodMessage: string := "Payment method is invalid."
  const DateFormatMessage: string := "Format for date/s should follow YYYY-MM-DD."
  const ChangeAmountMessage: string := "Change amount should be numerical."

  /** `h[key]`: nil for a missing key. */
  function Get(h: Hash, key: string): Value {
    if key in h then h[key] else Nil
  }

  /** `fields.all? { |field| h.include?(field) }`. */
  predicate HasAll(h: Hash, fields: seq<string>) {
    forall i :: 0 <= i < |fields| ==> fields[i] in h
  }

  /** `v.to_sym`: a string becomes its symbol; nil, integers and dates have
      no `to_sym`. */
  function ToSym(v: Value): Result<string, Error> {
    if v.Str? then Ok(v.s) else Err(NoMethodError)
  }

  /** Whether `v.match(DATE_REGEXP)` finds a match; only strings answer `match`. */
  function MatchDate(v: Value): Result<bool, Error> {
    if v.Str? then Ok(MatchesDateRegexp(v.s)) else Err(NoMethodError)
  }

  // ---------------------------------------------------------------------
  // Date.strptime(s, "%Y-%m-%d") on a string that matches DATE_REGEXP

  /** The year, month and day runs of a string that matches the pattern. */
  function Fields(s: string): (f: Ymd)
    requires MatchesDateRegexp(s)
    ensures 0 <= f.year <= 9999 && 0 <= f.month <= 99 && 0 <= f.day <= 99
  {
    var ml := MonthWidth(s);
    assert DateShape(s, ml, |s| - 6 - ml);
    Ymd(DigitsValue(s[..4]), DigitsValue(s[5..5 + ml]), DigitsValue(s[6 + ml..]))
  }

  /** The strict parse: the fields must name a day of the Gregorian calendar,
      otherwise `Date::Error` is raised. */
  function Strptime(s: string): Option<Date>
    requires MatchesDateRegexp(s)
  {
    var f := Fields(s);
    if IsValid(f) then Some(f) else Nothing
  }

  /** Text laid out as four digits, `-`, two digits, `-`, two digits matches
      the pattern and reads back as the three numbers. */
  lemma FieldsOfLayout(s: string, year: int, month: int, day: int)
    requires |s| == 10 && s[4] == '-' && s[7] == '-'
    requires AllDigits(s[..4]) && AllDigits(s[5..7]) && AllDigits(s[8..])
    requires DigitsValue(s[..4]) == year && DigitsValue(s[5..7]) == month && DigitsValue(s[8..]) == day
    ensures MatchesDateRegexp(s)
    ensures Fields(s) == Ymd(year, month, day)
  {
    assert DateShape(s, 2, 2);
    assert MonthWidth(s) == 2;
  }

  /** Parsing the text a date prints as gives the date back. */
  lemma StrptimeFormat(d: Date)
    requires 0 <= d.year <= 9999
    ensures MatchesDateRegexp(Format(d))
    ensures Strptime(Format(d)) == Some(d)
  {
    FormatLayout(d);
    FieldsOfLayout(Format(d), d.year, d.month, d.day);
  }

  /** The other way round: zero-padded text that names a day prints back as
      itself. */
  lemma FormatStrptime(s: string)
    requires DateShape(s, 2, 2)
    ensures MatchesDateRegexp(s)
    ensures Strptime(s).Some? ==> Format(Strptime(s).value) == s
  {
    assert MonthWidth(s) == 2;
    if Strptime(s).Some? {
      FormatOfLayout(s, Strptime(s).value);
    }
  }

  // ---------------------------------------------------------------------
  // validate_rent and parse_rent

  /** Every field of `RENT_REQUIRED_FIELDS` is a key of the hash. */
  predicate HasRentFields(rent: Hash)
    ensures HasRentFields(rent) <==> HasAll(rent, RentRequiredFields)
  {
    assert RentRequiredFields[0] == "amount" && RentRequiredFields[1] == "frequency";
    assert RentRequiredFields[2] == "start_date" && RentRequiredFields[3] == "end_date";
    "amount" in rent && "frequency" in rent && "start_date" in rent && "end_date" in rent
  }

  /** Guards 1 to 3 (lines 10-20) pass: every required field is present, the
      amount is a number and the frequency names a `RENT_FREQUENCY` key. */
  predicate PassesFrequencyGuard(rent: Hash) {
    HasRentFields(rent)
    && rent["amount"].Int?
    && rent["frequency"].Str? && FrequencyNamed(rent["frequency"].s).Some?
  }

  /** Guard 4 (line 22) passes: the method is nil or absent, or names a
      `PAYMENT_METHOD` key. */
  predicate PassesMethodGuard(rent: Hash) {
    Get(rent, "payment_method") == Nil
    || (rent["payment_method"].Str? && MethodNamed(rent["payment_method"].s).Some?)
  }

  /** The five guards of `validate_rent` all pass. */
  predicate PassesRentGuards(rent: Hash) {
    PassesFrequencyGuard(rent) && PassesMethodGuard(rent)
    && rent["start_date"].Str? && MatchesDateRegexp(rent["start_date"].s)
    && rent["end_date"].Str? && MatchesDateRegexp(rent["end_date"].s)
  }

  /** Both date strings name real days. */
  predicate DatesParse(rent: Hash)
    requires PassesRentGuards(rent)
  {
    Strptime(rent["start_date"].s).Some? && Strptime(rent["end_date"].s).Some?
  }

  /** `parse_rent`: a copy of the hash with the frequency as a symbol, both
      dates parsed, and the method defaulted to `:none` when the key is
      absent. A present but nil method reaches `nil.to_sym`. */
  function ParseRent(rent: Hash): (r: Result<Rent, Error>)
    requires PassesRentGuards(rent)
    ensures r == Err(DateError) <==> !DatesParse(rent)
    ensures r == Err(NoMethodError) <==>
              DatesParse(rent) && "payment_method" in rent && rent["payment_method"] == Nil
    ensures r.Ok? <==> DatesParse(rent) && ("payment_method" !in rent || rent["payment_method"] != Nil)
    ensures r.Ok? ==> r.value.amount == rent["amount"].n
                      && FrequencyName(r.value.frequency) == rent["frequency"].s
                      && Some(r.value.startDate) == Strptime(rent["start_date"].s)
                      && Some(r.value.endDate) == Strptime(rent["end_date"].s)
                      && (if "payment_method" in rent then MethodName(r.value.paymentMethod) == rent["payment_method"].s
                          else r.value.paymentMethod == None)
  {
    var frequency := FrequencyNamed(rent["frequency"].s).value;
    match Strptime(rent["start_date"].s)
    case Nothing => Err(DateError)
    case Some(startDate) =>
      match Strptime(rent["end_date"].s)
      case Nothing => Err(DateError)
      case Some(endDate) =>
        if "payment_method" in rent then
          match ToSym(rent["payment_method"])
          case Err(e) => Err(e)
          case Ok(name) => Ok(Rent(rent["amount"].n, frequency, startDate, endDate, MethodNamed(name).value))
        else
          Ok(Rent(rent["amount"].n, frequency, startDate, endDate, None))
  }

  /** `validate_rent`: the guards in their order, each raising its own
      message, then `parse_rent`. Every outcome is listed with exactly the
      inputs that produce it. */
  function ValidateRent(rent: Hash): (r: Result<Rent, Error>)
    ensures r == Err(InvalidInputError(MissingFieldMessage)) <==> !HasAll(rent, RentRequiredFields)
    ensures r == Err(InvalidInputError(RentAmountMessage)) <==>
              HasRentFields(rent) && !rent["amount"].Int?
    ensures r == Err(InvalidInputError(FrequencyMessage)) <==>
              HasRentFields(rent) && rent["amount"].Int?
              && rent["frequency"].Str? && FrequencyNamed(rent["frequency"].s).Nothing?
    ensures r == Err(InvalidInputError(PaymentMethodMessage)) <==>
              PassesFrequencyGuard(rent)
              && Get(rent, "payment_method").Str? && MethodNamed(rent["payment_method"].s).Nothing?
    ensures r == Err(InvalidInputError(DateFormatMessage)) <==>
              PassesFrequencyGuard(rent) && PassesMethodGuard(rent)
              && rent["start_date"].Str?
              && (!MatchesDateRegexp(rent["start_date"].s)
                  || (rent["end_date"].Str? && !MatchesDateRegexp(rent["end_date"].s)))
    ensures r == Err(DateError) <==> PassesRentGuards(rent) && !DatesParse(rent)
    ensures r == Err(NoMethodError) <==>
              HasRentFields(rent) && rent["amount"].Int?
              && (!rent["frequency"].Str?
                  || (PassesFrequencyGuard(rent) && Get(rent, "payment_method") != Nil
                      && !rent["payment_method"].Str?)
                  || (PassesFrequencyGuard(rent) && PassesMethodGuard(rent)
                      && (!rent["start_date"].Str?
                          || (MatchesDateRegexp(rent["start_date"].s) && !rent["end_date"].Str?)))
                  || (PassesRentGuards(rent) && DatesParse(rent)
                      && "payment_method" in rent && rent["payment_method"] == Nil))
    ensures PassesRentGuards(rent) ==> r == ParseRent(rent)
  {
    if !HasRentFields(rent) then Err(InvalidInputError(MissingFieldMessage))
    else if !rent["amount"].Int? then Err(InvalidInputError(RentAmountMessage))
    else
      match ToSym(rent["frequency"])
      case Err(e) => Err(e)
      case Ok(frequency) =>
        if FrequencyNamed(frequency).Nothing? then Err(InvalidInputError(FrequencyMessage))
        else
          var methodCheck: Result<bool, Error> :=
            if Get(rent, "payment_method") == Nil then Ok(true)
            else match ToSym(rent["payment_method"])
                 case Err(e) => Err(e)
                 case Ok(name) => Ok(MethodNamed(name).Some?);
          match methodCheck
          case Err(e) => Err(e)
          case Ok(known) =>
            if !known then Err(InvalidInputError(PaymentMethodMessage))
            else
              match MatchDate(rent["start_date"])
              case Err(e) => Err(e)
              case Ok(startMatches) =>
                if !startMatches then Err(InvalidInputError(DateFormatMessage))
                else
                  match MatchDate(rent["end_date"])
                  case Err(e) => Err(e)
                  case Ok(endMatches) =>
                    if !endMatches then Err(InvalidInputError(DateFormatMessage))
                    else ParseRent(rent)
  }

  /** A hash whose fields each describe the corresponding term of `rent`
      passes every guard and parses to exactly `rent`. */
  lemma ValidateRentOf(h: Hash, rent: Rent)
    requires HasRentFields(h)
    requires h["amount"] == Int(rent.amount) && h["frequency"] == Str(FrequencyName(rent.frequency))
    requires h["start_date"].Str? && MatchesDateRegexp(h["start_date"].s)
    requires Strptime(h["start_date"].s) == Some(rent.startDate)
    requires h["end_date"].Str? && MatchesDateRegexp(h["end_date"].s)
    requires Strptime(h["end_date"].s) == Some(rent.endDate)
    requires "payment_method" in h ==> h["payment_method"] == Str(MethodName(rent.paymentMethod))
    requires "payment_method" !in h ==> rent.paymentMethod == None
    ensures ValidateRent(h) == Ok(rent)
  {
    FrequencyNamedInverse(rent.frequency, FrequencyName(rent.frequency));
    MethodNamedInverse(rent.paymentMethod, MethodName(rent.paymentMethod));
    assert PassesRentGuards(h);
  }

  /** The hash a caller writes for given lease terms, with the dates as text. */
  function RentHash(rent: Rent): Hash {
    map["amount" := Int(rent.amount), "frequency" := Str(FrequencyName(rent.frequency)),
        "start_date" := Str(Format(rent.startDate)), "end_date" := Str(Format(rent.endDate)),
        "payment_method" := Str(MethodName(rent.paymentMethod))]
  }

  /** Validation accepts every well-formed description of a lease and parses
      it back to the very terms it describes. */
  lemma ValidateRentHash(rent: Rent)
    requires 0 <= rent.startDate.year <= 9999 && 0 <= rent.endDate.year <= 9999
    ensures ValidateRent(RentHash(rent)) == Ok(rent)
  {
    StrptimeFormat(rent.startDate);
    StrptimeFormat(rent.endDate);
    ValidateRentOf(RentHash(rent), rent);
  }

  /** The same hash with the optional `payment_method` key left out. */
  function RentHashWithoutMethod(rent: Rent): (h: Hash)
    ensures h == RentHash(rent) - {"payment_method"}
  {
    map["amount" := Int(rent.amount), "frequency" := Str(FrequencyName(rent.frequency)),
        "start_date" := Str(Format(rent.startDate)), "end_date" := Str(Format(rent.endDate))]
  }

  /** Without a `payment_method` key the method is `:none`. */
  lemma ValidateRentWithoutMethod(rent: Rent)
    requires 0 <= rent.startDate.year <= 9999 && 0 <= rent.endDate.year <= 9999
    ensures ValidateRent(RentHashWithoutMethod(rent)) == Ok(rent.(paymentMethod := None))
  {
    StrptimeFormat(rent.startDate);
    StrptimeFormat(rent.endDate);
    assert "payment_method" !in RentHashWithoutMethod(rent);
    ValidateRentOf(RentHashWithoutMethod(rent), rent.(paymentMethod := None));
  }

  /** A lease hash as a caller writes it, without a payment method. */
  function LeaseHash(amount: int, frequency: string, startDate: string, endDate: string): Hash {
    map["amount" := Int(amount), "frequency" := Str(frequency),
        "start_date" := Str(startDate), "end_date" := Str(endDate)]
  }

  /** Dates that have the shape the pattern asks for but of which one names
      no day get past every guard, and the strict parse raises `Date::Error`. */
  lemma LeaseDateError(amount: int, frequency: string, startDate: string, endDate: string)
    requires FrequencyNamed(frequency).Some?
    requires MatchesDateRegexp(startDate) && MatchesDateRegexp(endDate)
    requires Strptime(startDate).Nothing? || Strptime(endDate).Nothing?
    ensures ValidateRent(LeaseHash(amount, frequency, startDate, endDate)) == Err(DateError)
  {
    var h := LeaseHash(amount, frequency, startDate, endDate);
    assert PassesRentGuards(h) && !DatesParse(h);
  }

  /** A start date of another shape gets the format message. */
  lemma LeaseFormatError(amount: int, frequency: string, startDate: string, endDate: string)
    requires FrequencyNamed(frequency).Some?
    requires !MatchesDateRegexp(startDate)
    ensures ValidateRent(LeaseHash(amount, frequency, startDate, endDate))
            == Err(InvalidInputError(DateFormatMessage))
  {
  }

  lemma TwoDigits(s: string)
    requires |s| == 2 && AllDigits(s)
    ensures DigitsValue(s) == 10 * (s[0] - '0') as int + (s[1] - '0') as int
  {
    assert s[..1][..0] == [];
  }

  /** `2024-02-40` has the shape of a date but names no day. */
  lemma NoSuchDayText()
    ensures MatchesDateRegexp("2024-02-40") && Strptime("2024-02-40") == Nothing
  {
    var bad := "2024-02-40";
    assert DateShape(bad, 2, 2);
    assert MonthWidth(bad) == 2;
    TwoDigits(bad[5..7]);
    TwoDigits(bad[8..]);
    assert Fields(bad).day == 40;
  }

  /** The unit test's sequence on a valid lease of any amount, named
      frequency and matching end date: `2024-02-40` as the start date, then
      as both dates, is a `Date::Error`; `inv` as the start date, first with
      the bad end date and then with `inv` as the end date too, gets the
      format message, because the pattern is checked before any parse. */
  lemma NoSuchDay(amount: int, frequency: string, endDate: string)
    requires FrequencyNamed(frequency).Some? && MatchesDateRegexp(endDate)
    ensures ValidateRent(LeaseHash(amount, frequency, "2024-02-40", endDate)) == Err(DateError)
    ensures ValidateRent(LeaseHash(amount, frequency, "2024-02-40", "2024-02-40")) == Err(DateError)
    ensures ValidateRent(LeaseHash(amount, frequency, "inv", "2024-02-40"))
            == Err(InvalidInputError(DateFormatMessage))
    ensures ValidateRent(LeaseHash(amount, frequency, "inv", "inv"))
            == Err(InvalidInputError(DateFormatMessage))
  {
    NoSuchDayText();
    LeaseDateError(amount, frequency, "2024-02-40", endDate);
    LeaseDateError(amount, frequency, "2024-02-40", "2024-02-40");
    assert !MatchesDateRegexp("inv");
    LeaseFormatError(amount, frequency, "inv", "2024-02-40");
    LeaseFormatError(amount, frequency, "inv", "inv");
  }

  // ---------------------------------------------------------------------
  // validate_payment_method

  /** `validate_payment_method`: the symbol of any `PAYMENT_METHOD` key,
      `:none` included. */
  function ValidatePaymentMethod(v: Value): (r: Result<PaymentMethod, Error>)
    ensures r.Ok? <==> v.Str? && MethodNamed(v.s).Some?
    ensures r.Ok? ==> MethodName(r.value) == v.s
    ensures r == Err(InvalidInputError(PaymentMethodMessage)) <==> v.Str? && MethodNamed(v.s).Nothing?
    ensures r == Err(NoMethodError) <==> !v.Str?
  {
    match ToSym(v)
    case Err(e) => Err(e)
    case Ok(name) =>
      if MethodNamed(name).Nothing? then Err(InvalidInputError(PaymentMethodMessage))
      else Ok(MethodNamed(name).value)
  }

  /** Every method is accepted under its own name. */
  lemma ValidatePaymentMethodName(m: PaymentMethod)
    ensures ValidatePaymentMethod(Str(MethodName(m))) == Ok(m)
  {
    MethodNamedInverse(m, MethodName(m));
  }

  // ---------------------------------------------------------------------
  // validate_rent_change and parse_rent_change

  /** A caller's hash object: `parse_rent_change` writes into it. */
  class InputHash {
    var entries: Hash

    constructor (entries: Hash)
      ensures this.entries == entries
    {
      this.entries := entries;
    }
  }

  /** Every field of `RENT_CHANGE_REQUIRED_FIELDS` is a key of the hash. */
  predicate HasRentChangeFields(change: Hash)
    ensures HasRentChangeFields(change) <==> HasAll(change, RentChangeRequiredFields)
  {
    assert RentChangeRequiredFields[0] == "amount" && RentChangeRequiredFields[1] == "effective_date";
    "amount" in change && "effective_date" in change
  }

  /** The three guards of `validate_rent_change` pass. */
  predicate PassesRentChangeGuards(change: Hash) {
    HasRentChangeFields(change) && change["amount"].Int?
    && change["effective_date"].Str? && MatchesDateRegexp(change["effective_date"].s)
  }

  /** What `validate_rent_change` returns or raises for a hash, each outcome
      with exactly the inputs that produce it. */
  function RentChangeOf(change: Hash): (r: Result<RentChange, Error>)
    ensures r == Err(InvalidInputError(MissingFieldMessage)) <==> !HasAll(change, RentChangeRequiredFields)
    ensures r == Err(InvalidInputError(ChangeAmountMessage)) <==>
              HasRentChangeFields(change) && !change["amount"].Int?
    ensures r == Err(NoMethodError) <==>
              HasRentChangeFields(change) && change["amount"].Int? && !change["effective_date"].Str?
    ensures r == Err(InvalidInputError(DateFormatMessage)) <==>
              HasRentChangeFields(change) && change["amount"].Int? && change["effective_date"].Str?
              && !MatchesDateRegexp(change["effective_date"].s)
    ensures r == Err(DateError) <==>
              PassesRentChangeGuards(change) && Strptime(change["effective_date"].s).Nothing?
    ensures r.Ok? <==> PassesRentChangeGuards(change) && Strptime(change["effective_date"].s).Some?
    ensures r.Ok? ==> r.value.amount == change["amount"].n
                      && Some(r.value.effectiveDate) == Strptime(change["effective_date"].s)
  {
    if !HasRentChangeFields(change) then Err(InvalidInputError(MissingFieldMessage))
    else if !change["amount"].Int? then Err(InvalidInputError(ChangeAmountMessage))
    else
      match MatchDate(change["effective_date"])
      case Err(e) => Err(e)
      case Ok(matches) =>
        if !matches then Err(InvalidInputError(DateFormatMessage))
        else
          match Strptime(change["effective_date"].s)
          case Nothing => Err(DateError)
          case Some(d) => Ok(RentChange(change["amount"].n, d))
  }

  /** `parse_rent_change`: parses the effective date and writes the `Date`
      back into the caller's own hash; a date that does not exist raises
      before anything is written. */
  method ParseRentChange(change: InputHash) returns (r: Result<RentChange, Error>)
    requires PassesRentChangeGuards(change.entries)
    modifies change
    ensures r == RentChangeOf(old(change.entries))
    ensures r.Ok? ==> change.entries == old(change.entries)["effective_date" := DateValue(r.value.effectiveDate)]
    ensures r.Err? ==> change.entries == old(change.entries)
  {
    var parsed := Strptime(change.entries["effective_date"].s);
    if parsed.Nothing? {
      return Err(DateError);
    }
    change.entries := change.entries["effective_date" := DateValue(parsed.value)];
    r := Ok(RentChange(change.entries["amount"].n, parsed.value));
  }

  /** `validate_rent_change`: the guards in their order, then the parse that
      writes into the caller's hash. */
  method ValidateRentChange(change: InputHash) returns (r: Result<RentChange, Error>)
    modifies change
    ensures r == RentChangeOf(old(change.entries))
    ensures r.Ok? ==> change.entries == old(change.entries)["effective_date" := DateValue(r.value.effectiveDate)]
    ensures r.Err? ==> change.entries == old(change.entries)
  {
    if !HasRentChangeFields(change.entries) {
      return Err(InvalidInputError(MissingFieldMessage));
    }
    if !change.entries["amount"].Int? {
      return Err(InvalidInputError(ChangeAmountMessage));
    }
    var matches := MatchDate(change.entries["effective_date"]);
    if matches.Err? {
      return Err(matches.error);
    }
    if !matches.value {
      return Err(InvalidInputError(DateFormatMessage));
    }
    r := ParseRentChange(change);
  }

  /** Because the parse writes a `Date` into the caller's hash, handing the
      same hash in a second time fails: a `Date` does not answer `match`. */
  lemma RentChangeNotReusable(change: Hash)
    requires RentChangeOf(change).Ok?
    ensures RentChangeOf(change["effective_date" := DateValue(RentChangeOf(change).value.effectiveDate)])
            == Err(NoMethodError)
  {
  }
}

/**
 * The full-screen amount-entry keypad (AmountInputActivity): a text buffer the user
 * edits with number, operator, clear and delete keys; after every edit the buffer is
 * evaluated as an arithmetic expression and the last valid amount is recomputed,
 * truncated to a precision chosen from the rounding flag and the currency.
 */
module AmountInput {
  import opened Nullable
  import opened Amounts

  /**
   * Constants.DEFAULT_PRECISION and Constants.NOT_SET. Constants.java is not part of
   * this model, so their values are left open and every proof holds for any value.
   */
  const DefaultPrecision: nat
  const NotSet: int

  /** The part of a currency the activity uses: its scale (e.g. 100 for two decimals). */
  datatype Currency = Currency(scale: int)

  /**
   * What evaluating a cleaned expression gives: exp4j's ExpressionBuilder followed by
   * MoneyFactory.fromString(Double.toString(..)). An IllegalArgumentException from either
   * step (a malformed expression, or a non-finite result that the Money parser rejects)
   * is ArgumentError; any other exception is OtherError.
   */
  datatype Outcome = Value(result: Money) | ArgumentError | OtherError

  /** Which formatter getFormattedAmount calls for the top box. */
  datatype FormatBranch =
    | FormatWithLocale
    | FormatIgnoringDecimalCount(currencyId: Option<int>)
    | CurrencyFormatted(formattingCurrency: int)

  /** Which formatter getFormattedAmountForEditing calls for the entry field. */
  datatype EditingFormat =
    | EditingZero
    | EditingAtCurrencyScale(currency: Currency)
    | EditingAtDefaultPrecision(currency: Currency)
    | EditingWithLocale

  /** What the top box shows: the amount, through the given formatter. */
  datatype TopBox = TopBox(branch: FormatBranch, amount: Option<Money>)

  /** The collaborators whose code is not part of this model. */
  datatype Services = Services(
    currencies: map<int, Currency>,                  // CurrencyService.getCurrency
    numberOfDecimals: int -> nat,                    // NumericHelper.getNumberOfDecimals
    cleanUp: string -> string,                       // NumericHelper.cleanUpNumberString
    evaluate: string -> Outcome,                     // exp4j and the Money conversion
    truncateToCurrency: (Option<Money>, Option<Currency>) -> Option<Money>,  // NumericHelper.truncateToCurrency
    formatForEditing: (EditingFormat, Money) -> string)                       // FormatUtilities, for the entry field

  /** CurrencyService.getCurrency: null for a null id or an unknown one. */
  function GetCurrency(services: Services, id: Option<int>): (c: Option<Currency>)
    ensures c.Some? <==> id.Some? && id.value in services.currencies
    ensures c.Some? ==> c.value == services.currencies[id.value]
  {
    if id.Some? && id.value in services.currencies then Some(services.currencies[id.value]) else None
  }

  /** getPrecision: the currency's number of decimals when rounding to a currency that exists, else the default. */
  function GetPrecision(rounding: bool, id: Option<int>, services: Services): (p: nat)
    ensures !rounding || id.None? || id.value !in services.currencies ==> p == DefaultPrecision
    ensures rounding && id.Some? && id.value in services.currencies
      ==> p == services.numberOfDecimals(services.currencies[id.value].scale)
  {
    if !rounding || id.None? then DefaultPrecision
    else
      match GetCurrency(services, id)
      case None => DefaultPrecision
      case Some(currency) => services.numberOfDecimals(currency.scale)
  }

  /** isCurrencySet: the id is neither null nor NOT_SET. */
  predicate IsCurrencySet(id: Option<int>): (isSet: bool)
    ensures id.None? ==> !isSet
    ensures id == Some(NotSet) ==> !isSet
    ensures id.Some? && id.value != NotSet ==> isSet
  {
    id.Some? && id.value != NotSet
  }

  /** getAmount: truncate to the currency only when rounding is on and a currency id is set. */
  function GetAmount(amount: Option<Money>, rounding: bool, id: Option<int>, services: Services): (r: Option<Money>)
    ensures !rounding || id.None? || id.value == NotSet ==> r == amount
    ensures rounding && id.Some? && id.value != NotSet
      ==> r == services.truncateToCurrency(amount, GetCurrency(services, id))
  {
    if rounding && IsCurrencySet(id) then services.truncateToCurrency(amount, GetCurrency(services, id))
    else amount
  }

  /**
   * getFormattedAmount's choice of formatter, following the source's three statements in
   * order: a null id picks the locale formatter, then a cleared rounding flag overrides it
   * with the decimal-ignoring one, and only if neither applied is the currency formatter used.
   */
  function FormatBranchOf(rounding: bool, id: Option<int>): (b: FormatBranch)
    ensures b.FormatIgnoringDecimalCount? <==> !rounding
    ensures b.FormatIgnoringDecimalCount? ==> b.currencyId == id
    ensures b.FormatWithLocale? <==> rounding && id.None?
    ensures b.CurrencyFormatted? <==> rounding && id.Some?
    ensures b.CurrencyFormatted? ==> id == Some(b.formattingCurrency)
  {
    var afterNullCheck: Option<FormatBranch> := if id.None? then Some(FormatWithLocale) else None;
    var afterRoundingCheck := if !rounding then Some(FormatIgnoringDecimalCount(id)) else afterNullCheck;
    if afterRoundingCheck.Some? then afterRoundingCheck.value else CurrencyFormatted(id.value)
  }

  /** getFormattedAmountForEditing's choice of formatter for the entry field. */
  function EditingFormatOf(amount: Option<Money>, rounding: bool, currency: Option<Currency>): (f: EditingFormat)
    ensures f.EditingZero? <==> amount.None?
    ensures f.EditingWithLocale? <==> amount.Some? && currency.None?
    ensures f.EditingAtCurrencyScale? <==> amount.Some? && currency.Some? && rounding
    ensures f.EditingAtDefaultPrecision? <==> amount.Some? && currency.Some? && !rounding
    ensures f.EditingAtCurrencyScale? || f.EditingAtDefaultPrecision? ==> currency == Some(f.currency)
  {
    if amount.None? then EditingZero
    else if currency.Some? then
      (if rounding then EditingAtCurrencyScale(currency.value) else EditingAtDefaultPrecision(currency.value))
    else EditingWithLocale
  }

  /**
   * The three policies agree: when rounding to a known currency whose id is not NOT_SET,
   * the precision is the currency's, getAmount rounds and the top box uses the currency
   * formatter; when rounding is off, the precision is the default, getAmount leaves the
   * amount alone and the top box ignores the currency's decimal count.
   */
  lemma PoliciesAgree(rounding: bool, id: Option<int>, services: Services, amount: Option<Money>)
    ensures rounding && id.Some? && id.value != NotSet && id.value in services.currencies ==>
      && GetPrecision(rounding, id, services) == services.numberOfDecimals(services.currencies[id.value].scale)
      && GetAmount(amount, rounding, id, services) == services.truncateToCurrency(amount, Some(services.currencies[id.value]))
      && FormatBranchOf(rounding, id) == CurrencyFormatted(id.value)
    ensures !rounding ==>
      && GetPrecision(rounding, id, services) == DefaultPrecision
      && GetAmount(amount, rounding, id, services) == amount
      && FormatBranchOf(rounding, id) == FormatIgnoringDecimalCount(id)
  {
  }

  /**
   * deleteLastCharacterFrom: an empty text is returned as it is; otherwise the last
   * character is dropped, and a text that would become empty becomes "0" instead.
   */
  function DeleteLastCharacterFrom(number: string): (r: string)
    ensures |number| == 0 ==> r == number
    ensures |number| > 0 ==> |r| > 0
    ensures |number| > 1 ==> r == number[..|number| - 1]
    ensures |number| == 1 ==> r == "0"
  {
    if |number| <= 0 then number
    else
      var cut := number[..|number| - 1];
      if |cut| == 0 then "0" else cut
  }

  /** The text left after pressing delete `presses` times. */
  function DeletedTimes(number: string, presses: nat): (r: string)
    ensures presses == 0 ==> r == number
    decreases presses
  {
    if presses == 0 then number else DeletedTimes(DeleteLastCharacterFrom(number), presses - 1)
  }

  /**
   * Pressing delete repeatedly on a non-empty text removes one character per press,
   * never empties it, and once only one character is left it becomes and stays "0".
   */
  lemma {:induction false} DeletingRepeatedly(number: string, presses: nat)
    requires |number| > 0
    ensures presses < |number| ==> DeletedTimes(number, presses) == number[..|number| - presses]
    ensures presses >= |number| ==> DeletedTimes(number, presses) == "0"
    ensures |DeletedTimes(number, presses)| > 0
    decreases presses
  {
    if presses > 0 {
      var once := DeleteLastCharacterFrom(number);
      DeletingRepeatedly(once, presses - 1);
      if |number| > 1 {
        assert once == number[..|number| - 1];
        if presses < |number| {
          assert once[..|once| - (presses - 1)] == number[..|number| - presses];
        }
      } else {
        assert once == "0";
      }
    }
  }

  /**
   * NumericHelper.truncateToCurrency, as the Money library defines it: an amount of a
   * known currency is truncated to that currency's number of decimals.
   */
  ghost predicate TruncatesToCurrencyDecimals(services: Services)
  {
    forall m: Money, c: Currency :: services.truncateToCurrency(Some(m), Some(c)) == Some(Truncate(m, services.numberOfDecimals(c.scale)))
  }

  /**
   * An amount evaluated at getPrecision is left alone by getAmount: either getAmount does
   * not round, or it truncates to the currency's decimals, which is the precision the
   * evaluation already truncated to.
   */
  lemma GetAmountKeepsEvaluatedAmount(v: Money, rounding: bool, id: Option<int>, services: Services)
    requires TruncatesToCurrencyDecimals(services)
    requires !rounding || !IsCurrencySet(id) || id.value in services.currencies
    ensures var evaluated := Some(Truncate(v, GetPrecision(rounding, id, services)));
      GetAmount(evaluated, rounding, id, services) == evaluated
  {
    var p := GetPrecision(rounding, id, services);
    if rounding && IsCurrencySet(id) {
      var c := services.currencies[id.value];
      assert services.truncateToCurrency(Some(Truncate(v, p)), Some(c)) == Some(Truncate(Truncate(v, p), p));
      TruncateTwice(v, p, p);
    }
  }

  /** The result of one evaluation: the amount, whether the warning colour is shown, and the success flag. */
  datatype Evaluation = Evaluation(amount: Option<Money>, warning: bool, ok: bool)

  /**
   * The invariant the activity keeps between key presses: the amount and the warning
   * colour are those the current (cleaned) text evaluates to. An empty text means zero;
   * a value means that value truncated at the precision; an argument error shows the
   * warning and keeps whatever amount was there; any other error keeps it without a warning.
   */
  predicate Consistent(cleaned: string, outcome: Outcome, amount: Option<Money>, warning: bool, precision: nat)
  {
    && (warning <==> |cleaned| > 0 && outcome.ArgumentError?)
    && (|cleaned| == 0 ==> amount == Some(Zero))
    && (|cleaned| > 0 && outcome.Value? ==> amount == Some(Truncate(outcome.result, precision)))
  }

  /** evalExpression, on values: the cleaned text, what it evaluates to and the amount held before. */
  function Evaluate(cleaned: string, outcome: Outcome, previous: Option<Money>, precision: nat): (e: Evaluation)
    ensures Consistent(cleaned, outcome, e.amount, e.warning, precision)
    ensures e.ok <==> !e.warning
    ensures |cleaned| > 0 && !outcome.Value? ==> e.amount == previous
  {
    if |cleaned| > 0 then
      match outcome
      case Value(v) => Evaluation(Some(Truncate(v, precision)), false, true)
      case ArgumentError => Evaluation(previous, true, false)
      case OtherError => Evaluation(previous, false, true)
    else Evaluation(Some(Zero), false, true)
  }

  /**
   * Evaluating a text whose amount is already consistent with it changes nothing, so
   * evaluating the same text twice gives the same amount as evaluating it once.
   */
  lemma EvaluateIdempotent(cleaned: string, outcome: Outcome, previous: Option<Money>, precision: nat)
    ensures var once := Evaluate(cleaned, outcome, previous, precision);
      Evaluate(cleaned, outcome, once.amount, precision) == once
  {
  }

  /** A successful evaluation of a value never leaves more fractional digits than the precision. */
  lemma EvaluatedAmountWithinPrecision(cleaned: string, outcome: Outcome, previous: Option<Money>, precision: nat)
    requires |cleaned| == 0 || outcome.Value?
    ensures var e := Evaluate(cleaned, outcome, previous, precision);
      e.amount.Some? && e.amount.value.scale <= precision
  {
  }

  class AmountInputActivity {
    /** roundToCurrencyDecimals, mCurrencyId and the injected services: fixed for the screen's life. */
    const roundToCurrencyDecimals: bool
    const currencyId: Option<int>
    const services: Services

    /** txtMain: the expression being typed. */
    var text: string
    /** mStartedTyping: once set, number keys append instead of replacing the text. */
    var startedTyping: bool
    /** mAmount: the last valid amount (null until an amount is passed in or evaluated). */
    var amount: Option<Money>
    /** Whether txtTop shows the warning colour instead of the default one. */
    var warning: bool
    /** txtTop: empty until the first evaluation displays the amount. */
    var top: Option<TopBox>

    function Cleaned(): string
      reads this
    {
      services.cleanUp(text)
    }

    function Precision(): nat
    {
      GetPrecision(roundToCurrencyDecimals, currencyId, services)
    }

    function Shown(): TopBox
      reads this
    {
      TopBox(FormatBranchOf(roundToCurrencyDecimals, currencyId), amount)
    }

    /** The amount, the colour and the top box always reflect the current text. */
    ghost predicate Valid()
      reads this
    {
      && Consistent(Cleaned(), services.evaluate(Cleaned()), amount, warning, Precision())
      && top == Some(Shown())
    }

    /** When the current text fails to evaluate, the amount is the one held before. */
    ghost predicate KeptOnError(previous: Option<Money>)
      reads this
    {
      |Cleaned()| > 0 && !services.evaluate(Cleaned()).Value? ==> amount == previous
    }

    /**
     * initializeControls: the saved expression if there is one, otherwise the amount
     * formatted for editing, followed by a first evaluation.
     */
    constructor (rounding: bool, currencyId: Option<int>, services: Services,
                 initialAmount: Option<Money>, savedExpression: Option<string>)
      ensures roundToCurrencyDecimals == rounding && this.currencyId == currencyId && this.services == services
      ensures !startedTyping
      ensures !IsEmpty(savedExpression) ==> text == savedExpression.value
      ensures IsEmpty(savedExpression) && initialAmount.None? ==> text == "0"
      ensures IsEmpty(savedExpression) && initialAmount.Some? ==> text == services.formatForEditing(
        EditingFormatOf(initialAmount, rounding, GetCurrency(services, currencyId)), initialAmount.value)
      ensures Valid() && KeptOnError(initialAmount)
    {
      roundToCurrencyDecimals := rounding;
      this.currencyId := currencyId;
      this.services := services;
      text := "";
      startedTyping := false;
      amount := initialAmount;
      warning := false;
      top := None;
      new;
      if !IsEmpty(savedExpression) {
        text := savedExpression.value;
      } else {
        ShowAmountInEntryField();
      }
      var _ := EvalExpression();
    }

    /** displayFormattedAmount: the top box shows the current amount. */
    method DisplayFormattedAmount()
      modifies this`top
      ensures top == Some(Shown())
    {
      top := Some(TopBox(FormatBranchOf(roundToCurrencyDecimals, currencyId), amount));
    }

    /** showAmountInEntryField: the entry field shows the amount formatted for editing ("0" when there is none). */
    method ShowAmountInEntryField()
      modifies this`text
      ensures amount.None? ==> text == "0"
      ensures amount.Some? ==> text == services.formatForEditing(
        EditingFormatOf(amount, roundToCurrencyDecimals, GetCurrency(services, currencyId)), amount.value)
    {
      var format := EditingFormatOf(amount, roundToCurrencyDecimals, GetCurrency(services, currencyId));
      if format.EditingZero? {
        text := "0";
      } else {
        text := services.formatForEditing(format, amount.value);
      }
    }

    /**
     * evalExpression: recompute the amount from the current text. An empty text gives
     * zero; a value gives that value truncated at the precision; an argument error keeps
     * the old amount, shows the warning colour and reports failure; any other error keeps
     * the old amount but restores the default colour and reports success.
     */
    method EvalExpression() returns (ok: bool)
      modifies this`amount, this`warning, this`top
      ensures Valid() && KeptOnError(old(amount))
      ensures Evaluation(amount, warning, ok) == Evaluate(Cleaned(), services.evaluate(Cleaned()), old(amount), Precision())
      ensures ok <==> !warning
      ensures |Cleaned()| == 0 ==> amount == Some(Zero) && !warning
      ensures |Cleaned()| > 0 && services.evaluate(Cleaned()).Value?
        ==> amount == Some(Truncate(services.evaluate(Cleaned()).result, Precision())) && !warning
      ensures |Cleaned()| > 0 && services.evaluate(Cleaned()).ArgumentError?
        ==> amount == old(amount) && warning
      ensures |Cleaned()| > 0 && services.evaluate(Cleaned()).OtherError?
        ==> amount == old(amount) && !warning
    {
      var exp := services.cleanUp(text);
      if |exp| > 0 {
        match services.evaluate(exp)
        case Value(result) =>
          var precision := GetPrecision(roundToCurrencyDecimals, currencyId, services);
          amount := Some(Truncate(result, precision));
        case ArgumentError =>
          DisplayFormattedAmount();
          warning := true;
          return false;
        case OtherError =>
          // logged and otherwise ignored
      } else {
        amount := Some(Zero);
      }
      DisplayFormattedAmount();
      warning := false;
      return true;
    }

    /** A number key (a digit or the decimal separator): replaces the text on the first key press, appends after. */
    method PressNumber(keyText: string)
      modifies this
      ensures text == (if old(startedTyping) then old(text) else "") + keyText
      ensures startedTyping
      ensures Valid() && KeptOnError(old(amount))
    {
      var existingValue := text;
      if !startedTyping {
        existingValue := "";
        startedTyping := true;
      }
      text := existingValue + keyText;
      var _ := EvalExpression();
    }

    /** An operator key (+, -, *, /, parentheses): always appends. */
    method PressOperator(keyText: string)
      modifies this
      ensures text == old(text) + keyText
      ensures startedTyping
      ensures Valid() && KeptOnError(old(amount))
    {
      var existingValue := text;
      startedTyping := true;
      text := existingValue + keyText;
      var _ := EvalExpression();
    }

    /** The clear key 'C': empties the text; the amount becomes zero when the cleaned empty text is empty. */
    method PressClear()
      modifies this
      ensures text == "" && startedTyping
      ensures |Cleaned()| == 0 ==> amount == Some(Zero) && !warning
      ensures Valid() && KeptOnError(old(amount))
    {
      startedTyping := true;
      text := "";
      var _ := EvalExpression();
    }

    /** The delete key: drops the last character, never emptying a non-empty text. */
    method PressDelete()
      modifies this
      ensures text == DeleteLastCharacterFrom(old(text))
      ensures |old(text)| > 0 ==> |text| > 0
      ensures startedTyping
      ensures Valid() && KeptOnError(old(amount))
    {
      startedTyping := true;
      var currentNumber := text;
      currentNumber := DeleteLastCharacterFrom(currentNumber);
      text := currentNumber;
      var _ := EvalExpression();
    }
  }
}

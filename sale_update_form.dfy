/** The form that edits an existing sale: its validation schema, the
    `datetime-local` formatter, the values it loads, the values it submits,
    the message it shows on failure, and the component state it updates. */
module SaleUpdateForm {
  import opened Wrappers
  import opened Strings
  import opened FormErrors

  // ---------------------------------------------------------------- schema

  /** The three fields the schema checks, after Yup's casting: `None` is an
      empty number field, `""` an empty date field. */
  datatype SaleInput = SaleInput(quantitySold: Option<real>, salePrice: Option<real>, saleDate: string)

  /** `SaleSchema`: quantity at least 1 (with no whole-number check), price at
      least 0, a date. */
  predicate SchemaAccepts(v: SaleInput) {
    && v.quantitySold.Some? && v.quantitySold.value >= 1.0
    && v.salePrice.Some? && v.salePrice.value >= 0.0
    && v.saleDate != ""
  }

  // ------------------------------------------------------- date formatting

  /** `n` copies of `c`. */
  function Repeat(c: char, n: nat): (r: string)
    ensures |r| == n && forall i :: 0 <= i < n ==> r[i] == c
  {
    if n == 0 then [] else [c] + Repeat(c, n - 1)
  }

  /** `s.padStart(width, fill)`. */
  function PadStart(s: string, width: nat, fill: char): (r: string)
    ensures |r| == if |s| >= width then |s| else width
    ensures r[|r| - |s|..] == s
    ensures forall i :: 0 <= i < |r| - |s| ==> r[i] == fill
  {
    if |s| >= width then s else Repeat(fill, width - |s|) + s
  }

  /** `pad`: the decimal form padded on the left with '0' to two characters.
      It never truncates: at least two characters, ending in the number. */
  function Pad(n: nat): (p: string)
    ensures |p| >= 2 && |p| >= |NatToString(n)|
    ensures p[|p| - |NatToString(n)|..] == NatToString(n)
  {
    PadStart(NatToString(n), 2, '0')
  }

  /** The local date and time a `Date` reports: `getFullYear()`,
      `getMonth()` (0-based), `getDate()`, `getHours()`, `getMinutes()`. */
  datatype LocalDateTime = LocalDateTime(year: nat, month: nat, day: nat, hours: nat, minutes: nat)

  /** The ranges the `Date` getters stay in, with a four-digit year. */
  predicate FourDigitYearDate(d: LocalDateTime) {
    && 1000 <= d.year <= 9999
    && d.month < 12
    && 1 <= d.day <= 31
    && d.hours < 24
    && d.minutes < 60
  }

  /** The year, month, day, hours and minutes, separated by '-', '-', 'T' and ':'. */
  function Layout(year: string, month: string, day: string, hours: string, minutes: string): string {
    year + "-" + month + "-" + day + "T" + hours + ":" + minutes
  }

  /** `formatDateForInput`: `year-MM-DDTHH:mm`, the year not padded. */
  function FormatDateForInput(d: LocalDateTime): (s: string)
    ensures |s| >= 13
  {
    Layout(NatToString(d.year), Pad(d.month + 1), Pad(d.day), Pad(d.hours), Pad(d.minutes))
  }

  /** The shape of a `datetime-local` value with a four-digit year. */
  predicate DateInputShape(s: string) {
    |s| == 16 && s[4] == '-' && s[7] == '-' && s[10] == 'T' && s[13] == ':'
  }

  /** The parts of a value from its digit fields, the month made 0-based. */
  function FromFields(year: string, month: string, day: string, hours: string, minutes: string): Option<LocalDateTime> {
    if !(AllDigits(year) && AllDigits(month) && AllDigits(day) && AllDigits(hours) && AllDigits(minutes)) then None
    else if DigitsValue(month) == 0 then None
    else Some(LocalDateTime(DigitsValue(year), DigitsValue(month) - 1, DigitsValue(day), DigitsValue(hours), DigitsValue(minutes)))
  }

  /** Reads a `datetime-local` value with a four-digit year back into its
      parts (month 0-based, as `getMonth`). */
  function ParseDateInput(s: string): Option<LocalDateTime> {
    if !DateInputShape(s) then None
    else FromFields(s[..4], s[5..7], s[8..10], s[11..13], s[14..])
  }

  /** One digit gets a leading zero; two digits are left as they are. */
  lemma PadSmallNumbers(n: nat)
    requires n < 100
    ensures n < 10 ==> Pad(n) == ['0', DigitChar(n)]
    ensures 10 <= n ==> Pad(n) == NatToString(n) == [DigitChar(n / 10), DigitChar(n % 10)]
  {
    var s := NatToString(n);
    var r := Pad(n);
    if n < 10 {
      assert r == [r[0]] + r[1..];
    } else {
      NatToStringLength(n, 2);
    }
  }

  /** Below 100, `pad` gives two digits that read back as the number. */
  lemma PadTwoDigits(n: nat)
    requires n < 100
    ensures |Pad(n)| == 2 && AllDigits(Pad(n)) && DigitsValue(Pad(n)) == n
  {
    DigitsValueOfNatToString(n);
    PadSmallNumbers(n);
    if n < 10 {
      DigitsValueLeadingZero(NatToString(n));
      assert Pad(n) == "0" + NatToString(n);
    }
  }

  /** A zero-based month 0..11 is written as "01".."12". */
  lemma MonthWrittenOneBased(month: nat)
    requires month < 12
    ensures |Pad(month + 1)| == 2 && AllDigits(Pad(month + 1))
    ensures 1 <= DigitsValue(Pad(month + 1)) <= 12 && DigitsValue(Pad(month + 1)) == month + 1
  {
    PadTwoDigits(month + 1);
  }

  /** Where the fields sit when the year has four characters and the
      others two. */
  lemma FieldLayout(y: string, mo: string, da: string, h: string, mi: string)
    requires |y| == 4 && |mo| == 2 && |da| == 2 && |h| == 2 && |mi| == 2
    ensures DateInputShape(Layout(y, mo, da, h, mi))
    ensures var s := Layout(y, mo, da, h, mi);
            s[..4] == y && s[5..7] == mo && s[8..10] == da && s[11..13] == h && s[14..] == mi
  {
  }

  /** With a four-digit year the value is 16 characters long with '-' at 4
      and 7, 'T' at 10 and ':' at 13, and it reads back as the same date and
      time: the formatter loses nothing. */
  lemma FormatDateRoundTrip(d: LocalDateTime)
    requires FourDigitYearDate(d)
    ensures DateInputShape(FormatDateForInput(d))
    ensures ParseDateInput(FormatDateForInput(d)) == Some(d)
  {
    var y, mo, da, h, mi := NatToString(d.year), Pad(d.month + 1), Pad(d.day), Pad(d.hours), Pad(d.minutes);
    assert Pow10(3) == 1000 && Pow10(4) == 10000;
    NatToStringLength(d.year, 4);
    DigitsValueOfNatToString(d.year);
    PadTwoDigits(d.month + 1);
    PadTwoDigits(d.day);
    PadTwoDigits(d.hours);
    PadTwoDigits(d.minutes);
    FieldLayout(y, mo, da, h, mi);
    assert ParseDateInput(FormatDateForInput(d)) == FromFields(y, mo, da, h, mi);
  }

  // ------------------------------------------------------ loaded values

  /** A form field holds either a number or a string. */
  datatype FieldValue = Num(n: real) | Text(s: string)

  /** Formik's values for this form: the three fields of its initial values. */
  datatype FormValues = FormValues(quantitySold: FieldValue, salePrice: FieldValue, saleDate: FieldValue)

  /** The sale as `getSaleById` returns it; null numbers are `None`, the date
      already broken into local parts. */
  datatype FetchedSale = FetchedSale(quantitySold: Option<real>, salePrice: Option<real>, saleDate: LocalDateTime)

  /** `x || ""` on a number: null and 0 fall back to the empty string, any
      other number is kept. */
  function NumberOrEmpty(x: Option<real>): (v: FieldValue)
    ensures v == Text("") <==> x.None? || x.value == 0.0
    ensures v != Text("") ==> v == Num(x.value)
  {
    if x.Some? && x.value != 0.0 then Num(x.value) else Text("")
  }

  /** `s || ""` on a string: the only falsy string is `""` itself, so the
      fallback gives back the same value either way. */
  function TextOrEmpty(s: string): (v: FieldValue)
    ensures v == Text(s)
  {
    if s != "" then Text(s) else Text("")
  }

  /** The object passed to `setInitialValues` after the sale is fetched. */
  function LoadedValues(sale: FetchedSale): (values: FormValues)
    ensures values.quantitySold == Text("") <==> !(sale.quantitySold.Some? && sale.quantitySold.value != 0.0)
    ensures values.quantitySold != Text("") ==> values.quantitySold == Num(sale.quantitySold.value)
    ensures values.salePrice == Text("") <==> !(sale.salePrice.Some? && sale.salePrice.value != 0.0)
    ensures values.salePrice != Text("") ==> values.salePrice == Num(sale.salePrice.value)
    ensures values.saleDate == Text(FormatDateForInput(sale.saleDate)) && values.saleDate != Text("")
  {
    var date := FormatDateForInput(sale.saleDate);
    FormValues(NumberOrEmpty(sale.quantitySold), NumberOrEmpty(sale.salePrice), TextOrEmpty(date))
  }

  // ----------------------------------------------------- submitted values

  /** The values handed to `updateSale`: the form's values spread, with the
      price converted to a number (`toNumber`) and the date to its ISO form
      through `Date` (`toIso`). */
  function SubmittedValues(values: FormValues, toNumber: FieldValue -> real, toIso: FieldValue -> string): (updated: FormValues)
    ensures updated.quantitySold == values.quantitySold
    ensures updated.salePrice == Num(toNumber(values.salePrice))
    ensures updated.saleDate == Text(toIso(values.saleDate))
  {
    values.(salePrice := Num(toNumber(values.salePrice)), saleDate := Text(toIso(values.saleDate)))
  }

  // ------------------------------------------------------- error message

  const UpdateFallback := "Failed to update sale. Please check your inputs and try again."

  /** The message shown when `updateSale` reports failure: the update
      form's own sentence unless the server sent a non-empty array, whose
      single message is shown as it is. */
  function UpdateErrorMessage(errors: ResponseErrors): (text: string)
    ensures !(errors.ErrorArray? && |errors.messages| > 0) ==> text == UpdateFallback
    ensures errors.ErrorArray? && |errors.messages| == 1 ==> text == errors.messages[0]
  {
    ErrorMessage(errors, UpdateFallback)
  }

  // ---------------------------------------------------- fetch failure text

  /** What `getSaleById` rejects with: the array of messages the API layer
      throws when the server answers with an error, or a JavaScript error
      carrying a `message` (a `TypeError` when no response came back). */
  datatype FetchError = ApiMessages(messages: seq<string>) | JsError(message: string)

  const FetchErrorPrefix := "Error fetching sale: "

  /** The text shown when the fetch throws: the prefix and `err.message` as a
      template literal renders it. An array has no `message` property, so
      it renders as "undefined". */
  function FetchErrorMessage(err: FetchError): (text: string)
    ensures |text| >= |FetchErrorPrefix| && text[..|FetchErrorPrefix|] == FetchErrorPrefix
    ensures err.JsError? ==> text[|FetchErrorPrefix|..] == err.message
    ensures err.ApiMessages? ==> text[|FetchErrorPrefix|..] == "undefined"
  {
    FetchErrorPrefix + (if err.JsError? then err.message else "undefined")
  }

  /** Whatever the server reported, an API rejection shows the same text: none
      of its messages reach the screen, while a JavaScript error's message
      always does. */
  lemma ApiRejectionHidesMessages(a: seq<string>, b: seq<string>, m: string, n: string)
    ensures FetchErrorMessage(ApiMessages(a)) == FetchErrorMessage(ApiMessages(b))
    ensures FetchErrorMessage(JsError(m)) == FetchErrorMessage(JsError(n)) <==> m == n
  {
    if FetchErrorMessage(JsError(m)) == FetchErrorMessage(JsError(n)) {
      assert m == FetchErrorMessage(JsError(m))[|FetchErrorPrefix|..];
    }
  }

  // ------------------------------------------------------ component state

  const EmptyValues := FormValues(Text(""), Text(""), Text(""))

  /** The state of the component: `initialValues`, `isLoading`, `errorMessage`. */
  class SaleUpdateFormState {
    var initialValues: FormValues
    var isLoading: bool
    var errorMessage: string

    constructor ()
      ensures initialValues == EmptyValues && isLoading && errorMessage == ""
    {
      initialValues := EmptyValues;
      isLoading := true;
      errorMessage := "";
    }

    /** The fetch succeeded: the loaded values replace the initial ones and
        loading ends. */
    method OnSaleFetched(sale: FetchedSale)
      modifies this
      ensures initialValues == LoadedValues(sale)
      ensures !isLoading && errorMessage == old(errorMessage)
    {
      initialValues := LoadedValues(sale);
      isLoading := false;
    }

    /** The fetch threw `err`: its text is shown and loading ends. */
    method OnFetchFailed(err: FetchError)
      modifies this
      ensures errorMessage == FetchErrorMessage(err)
      ensures !isLoading && initialValues == old(initialValues)
    {
      errorMessage := FetchErrorMessage(err);
      isLoading := false;
    }

    /** `onSubmit`: clears the message and produces the values handed to
        `updateSale`. */
    method Submit(values: FormValues, toNumber: FieldValue -> real, toIso: FieldValue -> string)
      returns (updated: FormValues)
      modifies this`errorMessage
      ensures errorMessage == ""
      ensures updated == SubmittedValues(values, toNumber, toIso)
    {
      errorMessage := "";
      updated := SubmittedValues(values, toNumber, toIso);
    }

    /** The answer of `updateSale`: on failure the message is set; on
        success the page navigates away and the message stays. */
    method OnUpdateResponse(success: bool, errors: ResponseErrors)
      modifies this`errorMessage
      ensures errorMessage == if success then old(errorMessage) else UpdateErrorMessage(errors)
    {
      if !success {
        errorMessage := UpdateErrorMessage(errors);
      }
    }
  }
}

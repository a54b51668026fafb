/**
 * The number formatters of lib/utils.ts. `Intl.NumberFormat` is outside the
 * model: a formatter is described by its locale and options, and turning a
 * number into text with it is the function `intl` passed in.
 */
module FormatUtils {
  import opened Wrappers

  /** A value in an `Intl.NumberFormat` options object. */
  datatype OptionValue = Text(s: string) | Count(n: int) | Flag(b: bool)

  /** An options object; keys not present are unset. */
  type Options = map<string, OptionValue>

  /** `new Intl.NumberFormat(locale, options)`. */
  datatype FormatterSpec = FormatterSpec(locale: string, options: Options)

  /** `formatter.format(x)` for the formatter a spec describes. */
  type Intl = (FormatterSpec, real) -> string

  const Locale: string := "en-US"

  const Thousand: real := 1000.0
  const Million: real := 1000000.0
  const Billion: real := 1000000000.0

  /** `Math.abs`. */
  function Abs(x: real): real {
    if x < 0.0 then -x else x
  }

  /** `{ ...defaults, ...options }`: the caller's keys win, the defaults fill the rest. */
  function Spread(defaults: Options, options: Options): (r: Options)
    ensures r.Keys == defaults.Keys + options.Keys
    ensures forall k :: k in options ==> r[k] == options[k]
    ensures forall k :: k in defaults && k !in options ==> r[k] == defaults[k]
  {
    defaults + options
  }

  /** The options `formatCurrency` builds: currency style, the given currency, then the caller's options. */
  function CurrencyOptions(currency: Option<string>, options: Options): Options {
    Spread(map["style" := Text("currency"), "currency" := Text(if currency.Some? then currency.value else "USD")], options)
  }

  /**
   * `formatCurrency(value, currency = "USD", options = {})`: an absent
   * currency is "USD"; the caller's options override style and currency.
   */
  function FormatCurrency(value: real, currency: Option<string>, options: Options, intl: Intl): (r: string)
    ensures r == intl(FormatterSpec(Locale, CurrencyOptions(currency, options)), value)
    ensures CurrencyOptions(currency, options)["style"] ==
      if "style" in options then options["style"] else Text("currency")
    ensures CurrencyOptions(currency, options)["currency"] ==
      if "currency" in options then options["currency"]
      else if currency.Some? then Text(currency.value) else Text("USD")
    ensures forall k :: k in options ==> CurrencyOptions(currency, options)[k] == options[k]
  {
    intl(FormatterSpec(Locale, CurrencyOptions(currency, options)), value)
  }

  /** The options `formatPercent` builds: percent style with exactly two fraction digits, then the caller's options. */
  function PercentOptions(options: Options): Options {
    Spread(map["style" := Text("percent"), "minimumFractionDigits" := Count(2), "maximumFractionDigits" := Count(2)],
      options)
  }

  /**
   * `formatPercent(value, options = {})`: formats `value / 100` in percent
   * style with two fraction digits unless the caller overrides them.
   */
  function FormatPercent(value: real, options: Options, intl: Intl): (r: string)
    ensures r == intl(FormatterSpec(Locale, PercentOptions(options)), value / 100.0)
    ensures PercentOptions(options).Keys ==
      options.Keys + {"style", "minimumFractionDigits", "maximumFractionDigits"}
    ensures "minimumFractionDigits" !in options ==> PercentOptions(options)["minimumFractionDigits"] == Count(2)
    ensures "maximumFractionDigits" !in options ==> PercentOptions(options)["maximumFractionDigits"] == Count(2)
    ensures "style" !in options ==> PercentOptions(options)["style"] == Text("percent")
    ensures forall k :: k in options ==> PercentOptions(options)[k] == options[k]
  {
    intl(FormatterSpec(Locale, PercentOptions(options)), value / 100.0)
  }

  /** The letter `formatNumber` appends, chosen from `|value|` alone. */
  function Suffix(value: real): (s: string)
    ensures s == "B" <==> Abs(value) >= Billion
    ensures s == "M" <==> Million <= Abs(value) < Billion
    ensures s == "K" <==> Thousand <= Abs(value) < Million
    ensures s == "" <==> Abs(value) < Thousand
  {
    if Abs(value) >= Billion then "B"
    else if Abs(value) >= Million then "M"
    else if Abs(value) >= Thousand then "K"
    else ""
  }

  /** The divisor that goes with the suffix. */
  function Scale(value: real): (d: real)
    ensures d > 0.0
  {
    if Abs(value) >= Billion then Billion
    else if Abs(value) >= Million then Million
    else if Abs(value) >= Thousand then Thousand
    else 1.0
  }

  /**
   * `formatNumber(value, options = {})`: the first threshold `|value|`
   * reaches (1e9, 1e6, 1e3) picks the divisor and the suffix B, M or K; below
   * 1000 the value is formatted as is, with no suffix.
   */
  function FormatNumber(value: real, options: Options, intl: Intl): (r: string)
    ensures Abs(value) >= Billion ==>
      r == intl(FormatterSpec(Locale, options), value / Billion) + "B"
    ensures Million <= Abs(value) < Billion ==>
      r == intl(FormatterSpec(Locale, options), value / Million) + "M"
    ensures Thousand <= Abs(value) < Million ==>
      r == intl(FormatterSpec(Locale, options), value / Thousand) + "K"
    ensures Abs(value) < Thousand ==>
      r == intl(FormatterSpec(Locale, options), value)
  {
    var formatter := FormatterSpec(Locale, options);
    intl(formatter, value / Scale(value)) + Suffix(value)
  }

  /** A value and its negation get the same suffix and the same divisor. */
  lemma SuffixIgnoresSign(value: real)
    ensures Suffix(-value) == Suffix(value) && Scale(-value) == Scale(value)
  {
  }

  /**
   * Below a billion, the number handed to the formatter has magnitude under
   * 1000, and with a suffix it is at least 1. This bounds the scaled number
   * only; the formatter's rounding can still print "1,000K".
   */
  lemma ScaledMagnitude(value: real)
    ensures Abs(value) < Billion ==> Abs(value / Scale(value)) < Thousand
    ensures Abs(value) >= Thousand ==> Abs(value / Scale(value)) >= 1.0
  {
  }
}

/**
 * lib/utils.js, the JavaScript twin of lib/utils.ts. Its `formatNumber` is
 * written as a run of early returns rather than an else-if chain; this
 * module follows that form and shows it gives the same text as the
 * TypeScript version for every input. Its `formatCurrency` and
 * `formatPercent` are the same expressions as the TypeScript ones and are
 * modelled by `FormatUtils.FormatCurrency` and `FormatUtils.FormatPercent`.
 */
module FormatUtilsJs {
  import opened FormatUtils

  /** `formatNumber` of lib/utils.js. */
  method FormatNumber(value: real, options: Options, intl: Intl) returns (r: string)
    ensures r == FormatUtils.FormatNumber(value, options, intl)
    ensures Abs(value) >= Billion ==> r == intl(FormatterSpec(Locale, options), value / Billion) + "B"
    ensures Million <= Abs(value) < Billion ==> r == intl(FormatterSpec(Locale, options), value / Million) + "M"
    ensures Thousand <= Abs(value) < Million ==> r == intl(FormatterSpec(Locale, options), value / Thousand) + "K"
    ensures Abs(value) < Thousand ==> r == intl(FormatterSpec(Locale, options), value)
  {
    var formatter := FormatterSpec(Locale, options);
    if Abs(value) >= Billion {
      return intl(formatter, value / Billion) + "B";
    }
    if Abs(value) >= Million {
      return intl(formatter, value / Million) + "M";
    }
    if Abs(value) >= Thousand {
      return intl(formatter, value / Thousand) + "K";
    }
    return intl(formatter, value);
  }
}

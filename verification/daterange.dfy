/** The custom date range of the date picker, with dates as day numbers. */
module DateRange {
  import opened Optional

  datatype Range = Range(from: int, to: int)

  /** `applyCustom`: when both typed dates parse, the range they span with
      the earlier one first; when either fails to parse, nothing is applied
      (`None`). */
  function ApplyCustom(from: Option<int>, to: Option<int>): (r: Option<Range>)
    ensures r.Some? <==> from.Some? && to.Some?
    ensures r.Some? ==> r.value.from <= r.value.to
    ensures r.Some? ==> multiset{r.value.from, r.value.to} == multiset{from.value, to.value}
    ensures r.Some? && from.value <= to.value ==> r.value == Range(from.value, to.value)
  {
    if from.None? || to.None? then None
    else
      var f, t := from.value, to.value;
      Some(Range(if f <= t then f else t, if f <= t then t else f))
  }

  /** Applying an applied range again changes nothing. */
  lemma ApplyCustomIdempotent(from: int, to: int)
    ensures ApplyCustom(Some(ApplyCustom(Some(from), Some(to)).value.from),
                        Some(ApplyCustom(Some(from), Some(to)).value.to))
            == ApplyCustom(Some(from), Some(to))
  {
  }

  /** The order in which the two dates are typed does not matter. */
  lemma ApplyCustomSymmetric(a: int, b: int)
    ensures ApplyCustom(Some(a), Some(b)) == ApplyCustom(Some(b), Some(a))
  {
  }
}

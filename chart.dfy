/** The bar chart's data shaping: labels zipped with values, with built-in
    defaults for an absent field and zero for a missing value. */
module Chart {
  import opened Text

  /** The optional `data` prop. The declared type makes both fields required,
      but the code's `data?.labels || ...` falls back per field, so each is
      modelled as possibly absent. */
  datatype ChartInput = ChartInput(labels: Option<seq<string>>, values: Option<seq<int>>)

  /** One recharts row, `{ name, value }`. */
  datatype Point = Point(name: string, value: int)

  const DefaultData: seq<int> := [65, 78, 66, 44, 88, 90, 45, 88, 73, 55, 66, 77]
  const DefaultLabels: seq<string> :=
    ["Jan", "Feb", "Mar", "Apr", "May", "Jun", "Jul", "Aug", "Sep", "Oct", "Nov", "Dec"]

  /** `data?.labels || defaultLabels`: any supplied array, even an empty one,
      is truthy and replaces the defaults. */
  function LabelsInUse(data: Option<ChartInput>): (labels: seq<string>)
    ensures data.Some? && data.value.labels.Some? ==> labels == data.value.labels.value
    ensures data.None? || data.value.labels.None? ==> labels == DefaultLabels
  {
    if data.Some? && data.value.labels.Some? then data.value.labels.value else DefaultLabels
  }

  /** `data?.values || defaultData`, decided apart from the labels. */
  function ValuesInUse(data: Option<ChartInput>): (values: seq<int>)
    ensures data.Some? && data.value.values.Some? ==> values == data.value.values.value
    ensures data.None? || data.value.values.None? ==> values == DefaultData
  {
    if data.Some? && data.value.values.Some? then data.value.values.value else DefaultData
  }

  /** `values[index] || 0`: a missing entry (undefined) reads as 0, and a 0
      stays 0. */
  function ValueAt(values: seq<int>, i: nat): (v: int)
    ensures i < |values| ==> v == values[i]
    ensures i >= |values| ==> v == 0
  {
    if i < |values| then values[i] else 0
  }

  /** The `.map` over the labels, written as a walk down both lists. */
  function ZipPadded(labels: seq<string>, values: seq<int>): (r: seq<Point>)
    ensures |r| == |labels|
  {
    if labels == [] then []
    else
      [Point(labels[0], ValueAt(values, 0))]
      + ZipPadded(labels[1..], if values == [] then [] else values[1..])
  }

  /** `chartData`. */
  function ChartData(data: Option<ChartInput>): (r: seq<Point>)
    ensures |r| == |LabelsInUse(data)|
  {
    ZipPadded(LabelsInUse(data), ValuesInUse(data))
  }

  /** Entry i pairs labels[i] with values[i], or 0 past the end of values:
      order is kept, short value lists are zero-padded. */
  lemma {:induction false} ZipPaddedAt(labels: seq<string>, values: seq<int>, i: nat)
    requires i < |labels|
    ensures ZipPadded(labels, values)[i] == Point(labels[i], ValueAt(values, i))
  {
    if i > 0 {
      var rest := if values == [] then [] else values[1..];
      ZipPaddedAt(labels[1..], rest, i - 1);
      assert ZipPadded(labels, values)[i] == ZipPadded(labels[1..], rest)[i - 1];
      assert ValueAt(rest, i - 1) == ValueAt(values, i);
    }
  }

  /** The chart, entry by entry: name from the labels in use, value from the
      values in use or 0. */
  lemma ChartDataAt(data: Option<ChartInput>, i: nat)
    requires i < |LabelsInUse(data)|
    ensures ChartData(data)[i] == Point(LabelsInUse(data)[i], ValueAt(ValuesInUse(data), i))
  {
    ZipPaddedAt(LabelsInUse(data), ValuesInUse(data), i);
  }

  /** Two value lists that agree (after zero-padding) on the first |labels|
      positions give the same chart. */
  lemma SameChartWhenValuesAgree(labels: seq<string>, v1: seq<int>, v2: seq<int>)
    requires forall i: nat :: i < |labels| ==> ValueAt(v1, i) == ValueAt(v2, i)
    ensures ZipPadded(labels, v1) == ZipPadded(labels, v2)
  {
    forall i | 0 <= i < |labels|
      ensures ZipPadded(labels, v1)[i] == ZipPadded(labels, v2)[i]
    {
      ZipPaddedAt(labels, v1, i);
      ZipPaddedAt(labels, v2, i);
    }
  }

  /** Values beyond the number of labels are dropped. */
  lemma ExtraValuesDropped(labels: seq<string>, values: seq<int>)
    requires |values| >= |labels|
    ensures ZipPadded(labels, values) == ZipPadded(labels, values[..|labels|])
  {
    SameChartWhenValuesAgree(labels, values, values[..|labels|]);
  }

  /** A short value list behaves as if padded with zeros. */
  lemma ShortValuesZeroPadded(labels: seq<string>, values: seq<int>, zeros: seq<int>)
    requires |values| + |zeros| == |labels|
    requires forall k :: 0 <= k < |zeros| ==> zeros[k] == 0
    ensures ZipPadded(labels, values) == ZipPadded(labels, values + zeros)
  {
    forall i: nat | i < |labels| ensures ValueAt(values, i) == ValueAt(values + zeros, i) {
      if i >= |values| {
        assert (values + zeros)[i] == zeros[i - |values|];
      }
    }
    SameChartWhenValuesAgree(labels, values, values + zeros);
  }

  /** With no `data`, the chart is the twelve months with the built-in values. */
  lemma DefaultChart()
    ensures ChartData(None) == [
      Point("Jan", 65), Point("Feb", 78), Point("Mar", 66), Point("Apr", 44),
      Point("May", 88), Point("Jun", 90), Point("Jul", 45), Point("Aug", 88),
      Point("Sep", 73), Point("Oct", 55), Point("Nov", 66), Point("Dec", 77)]
  {
    forall i | 0 <= i < 12 ensures ChartData(None)[i] == Point(DefaultLabels[i], DefaultData[i]) {
      ChartDataAt(None, i);
    }
  }

  /** A supplied label list, even an empty one, replaces the defaults: an
      empty one gives an empty chart whatever the values. */
  lemma SuppliedLabelsReplaceDefaults(labels: seq<string>, values: Option<seq<int>>)
    ensures ChartData(Some(ChartInput(Some(labels), values)))
      == ZipPadded(labels, if values.Some? then values.value else DefaultData)
    ensures labels == [] ==> ChartData(Some(ChartInput(Some(labels), values))) == []
  {
  }
}

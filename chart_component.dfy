/**
 * The chart renderer of the web front end: it reads the chart reply the
 * answer model produced (chart_type, title, data, x_axis, y_axis,
 * y_axis_label), picks the axis keys with their defaults, copies each data
 * row with "name" and "value" set from those keys, and chooses a bar, line
 * or pie chart; pie slices cycle through seven colours. A JavaScript value
 * is a JSON value or undefined (None); a TypeError thrown while rendering
 * is None as well.
 */
module ChartComponent {
  import opened Wrappers
  import opened Text
  import opened ChatReply

  /** A JavaScript value read from the reply: None stands for undefined. */
  type JsValue = Option<Json>

  /** The own properties of a plain object. */
  type Row = map<string, JsValue>

  const BarFillColor := "var(--text-secondary)"
  const BarStrokeColor := "#667587"
  const PieColors: seq<string> := ["#5e72e4", "#2dce89", "#ff8d4e", "#f5365c", "#11cdef", "#fb6340", "#ffd600"]
  const PieStrokeColor := "var(--surface)"

  /** A number literal whose digits before the exponent are all zero denotes 0 (or -0). */
  predicate ZeroMantissa(literal: string)
    decreases |literal|
  {
    literal == [] || literal[0] == 'e' || literal[0] == 'E'
    || ((!IsDigit(literal[0]) || literal[0] == '0') && ZeroMantissa(literal[1..]))
  }

  /** JavaScript truthiness: undefined, null, false, 0 and "" are falsy. */
  predicate Truthy(v: JsValue) {
    match v
    case None => false
    case Some(JNull) => false
    case Some(JBool(b)) => b
    case Some(JNumber(literal)) => !ZeroMantissa(literal)
    case Some(JString(s)) => s != ""
    case Some(_) => true
  }

  /** String(v) for a JSON value; an array joins its elements with ",", null ones as "". */
  function ValueString(j: Json): string
    decreases j
  {
    match j
    case JNull => "null"
    case JBool(b) => if b then "true" else "false"
    case JNumber(literal) => literal
    case JString(s) => s
    case JArray(items) =>
      Join(seq(|items|, i requires 0 <= i < |items| => if items[i].JNull? then "" else ValueString(items[i])), ",")
    case JObject(_) => "[object Object]"
  }

  /** String(v), which is also the property name v selects in obj[v]. */
  function JsString(v: JsValue): string {
    if v.None? then "undefined" else ValueString(v.value)
  }

  /** row[key]: the property, or undefined when the row has none. */
  function Get(row: Row, key: string): JsValue {
    if key in row then row[key] else None
  }

  /** v[0]: the first element of an array, the first character of a string, property "0" of an object. */
  function First(j: Json): JsValue {
    match j
    case JArray(items) => if items == [] then None else Some(items[0])
    case JString(s) => if s == [] then None else Some(JString([s[0]]))
    case JObject(fields) => if "0" in fields then Some(fields["0"]) else None
    case _ => None
  }

  /** The fields `const { ... } = chartData` reads; anything but an object has none of them. */
  function Field(chartData: Json, name: string): JsValue {
    if chartData.JObject? && name in chartData.fields then Some(chartData.fields[name]) else None
  }

  /** The axis keys and the Y label renderChart settles on. */
  datatype Axes = Axes(xKey: Json, yKey: JsValue, yLabel: JsValue)

  /**
   * xAxisKey = x_axis || 'name'; yAxisKey = y_axis ? y_axis[0] : 'value';
   * yAxisLabel = y_axis_label || yAxisKey.
   */
  function AxesOf(xAxis: JsValue, yAxis: JsValue, yAxisLabel: JsValue): (a: Axes)
    ensures Truthy(xAxis) ==> Some(a.xKey) == xAxis
    ensures !Truthy(xAxis) ==> a.xKey == JString("name")
    ensures !Truthy(yAxis) ==> a.yKey == Some(JString("value"))
    ensures yAxis.Some? && yAxis.value.JArray? && yAxis.value.items != [] ==> a.yKey == Some(yAxis.value.items[0])
    ensures yAxis == Some(JArray([])) ==> a.yKey.None?
    ensures Truthy(yAxisLabel) ==> a.yLabel == yAxisLabel
    ensures !Truthy(yAxisLabel) ==> a.yLabel == a.yKey
  {
    var yKey := if Truthy(yAxis) then First(yAxis.value) else Some(JString("value"));
    Axes(if Truthy(xAxis) then xAxis.value else JString("name"), yKey,
         if Truthy(yAxisLabel) then yAxisLabel else yKey)
  }

  /** The own properties a data item spreads; None for null, where reading item[key] throws. */
  function Props(item: Json): Option<Row> {
    match item
    case JNull => None
    case JObject(fields) => Some(map k | k in fields :: Some(fields[k]))
    case _ => Some(map[])
  }

  /** { ...item, name: item[xKey], value: item[yKey] } */
  function Process(row: Row, xKey: string, yKey: string): (r: Row)
    ensures r.Keys == row.Keys + {"name", "value"}
  {
    row["name" := Get(row, xKey)]["value" := Get(row, yKey)]
  }

  function ProcessItem(item: Json, xKey: string, yKey: string): Option<Row> {
    match Props(item)
    case None => None
    case Some(row) => Some(Process(row, xKey, yKey))
  }

  /** processedData = data.map(...); None when some item is null. */
  function ProcessData(items: seq<Json>, xKey: string, yKey: string): Option<seq<Row>> {
    Collect(items, item => ProcessItem(item, xKey, yKey))
  }

  datatype ChartKind = Bar | Line | Pie

  /** The switch on chart_type: 'pie' and 'line' by strict equality, a bar chart for everything else. */
  function KindOf(chartType: JsValue): (k: ChartKind)
    ensures k == Pie <==> chartType == Some(JString("pie"))
    ensures k == Line <==> chartType == Some(JString("line"))
    ensures k == Bar <==> chartType != Some(JString("pie")) && chartType != Some(JString("line"))
  {
    if chartType == Some(JString("pie")) then Pie
    else if chartType == Some(JString("line")) then Line
    else Bar
  }

  datatype CellStyle = CellStyle(fill: string, stroke: string, strokeWidth: nat)

  /**
   * What renderChart returns: a bar or line chart with its series name, the
   * two legend entries, the label the tooltip shows and one cell per row; or
   * a pie chart with one coloured cell per slice.
   */
  datatype Chart =
    | Cartesian(line: bool, data: seq<Row>, seriesName: JsValue, legend: seq<string>,
                tooltipLabel: string, cells: seq<CellStyle>)
    | PieChart(data: seq<Row>, cells: seq<CellStyle>)

  function BarCells(n: nat): (r: seq<CellStyle>)
    ensures |r| == n && forall i :: 0 <= i < n ==> r[i] == CellStyle(BarFillColor, BarStrokeColor, 1)
  {
    seq(n, _ => CellStyle(BarFillColor, BarStrokeColor, 1))
  }

  /** Slice i is filled with PIE_COLORS[i % PIE_COLORS.length]. */
  function PieCells(n: nat): (r: seq<CellStyle>)
    ensures |r| == n && forall i :: 0 <= i < n ==> r[i] == CellStyle(PieColors[i % |PieColors|], PieStrokeColor, 2)
  {
    seq(n, i requires 0 <= i < n => CellStyle(PieColors[i % |PieColors|], PieStrokeColor, 2))
  }

  /** CustomTooltip shows `${y_axis_label || 'Valor'}`. */
  function TooltipLabel(shown: JsValue): string {
    if Truthy(shown) then JsString(shown) else "Valor"
  }

  /** legendPayload: the Y label, and the X key with every '_' shown as a space. */
  function Legend(yLabel: JsValue, xKey: string): seq<string> {
    ["Eixo Y: " + JsString(yLabel), "Eixo X: " + ReplaceChar(xKey, '_', ' ')]
  }

  /**
   * renderChart. None when it throws: data is not an array (data.map), an
   * item is null (item[key]), or the X key is not a string (xAxisKey.replace).
   */
  function RenderChart(chartData: Json): Option<Chart> {
    var axes := AxesOf(Field(chartData, "x_axis"), Field(chartData, "y_axis"), Field(chartData, "y_axis_label"));
    var data := Field(chartData, "data");
    if data.None? || !data.value.JArray? then None
    else
      match ProcessData(data.value.items, ValueString(axes.xKey), JsString(axes.yKey))
      case None => None
      case Some(rows) =>
        if !axes.xKey.JString? then None
        else
          match KindOf(Field(chartData, "chart_type"))
          case Pie => Some(PieChart(rows, PieCells(|rows|)))
          case kind =>
            Some(Cartesian(kind == Line, rows, axes.yLabel, Legend(axes.yLabel, axes.xKey.s),
                           TooltipLabel(axes.yLabel), BarCells(|rows|)))
  }

  /** The component: the reply's title as heading over the chart. */
  datatype View = View(title: JsValue, chart: Chart)

  function ChartComponentView(chartData: Json): Option<View> {
    match RenderChart(chartData)
    case None => None
    case Some(chart) => Some(View(Field(chartData, "title"), chart))
  }

  // ---------------------------------------------------------------------------
  // Properties of the row mapping.
  // ---------------------------------------------------------------------------

  /**
   * A processed object row keeps every other field of the item, and its name
   * and value are the item's fields under the two keys (undefined when the
   * item lacks them), overriding any name or value it had.
   */
  lemma ProcessedObjectRow(fields: map<string, Json>, xKey: string, yKey: string)
    ensures var r := ProcessItem(JObject(fields), xKey, yKey);
      r.Some? && r.value.Keys == fields.Keys + {"name", "value"}
      && (forall k :: k in fields && k != "name" && k != "value" ==> r.value[k] == Some(fields[k]))
      && r.value["name"] == (if xKey in fields then Some(fields[xKey]) else None)
      && r.value["value"] == (if yKey in fields then Some(fields[yKey]) else None)
  {
  }

  /**
   * The mapping fails exactly when some item is null; otherwise it has one
   * row per item, in order.
   */
  lemma ProcessDataShape(items: seq<Json>, xKey: string, yKey: string)
    ensures ProcessData(items, xKey, yKey).Some? <==> forall i :: 0 <= i < |items| ==> !items[i].JNull?
    ensures ProcessData(items, xKey, yKey).Some? ==>
      var rows := ProcessData(items, xKey, yKey).value;
      |rows| == |items|
      && forall i :: 0 <= i < |items| ==> rows[i] == Process(Props(items[i]).value, xKey, yKey)
  {
    CollectPointwise(items, item => ProcessItem(item, xKey, yKey));
  }

  /**
   * Mapping the mapped rows again with the same keys changes nothing, as
   * long as the X key is not "value" and the Y key is not "name".
   */
  lemma ProcessIdempotent(row: Row, xKey: string, yKey: string)
    requires xKey != "value" && yKey != "name"
    ensures Process(Process(row, xKey, yKey), xKey, yKey) == Process(row, xKey, yKey)
  {
    var once := Process(row, xKey, yKey);
    assert Get(once, xKey) == Get(row, xKey);
    assert Get(once, yKey) == Get(row, yKey);
  }

  /** With x_axis "value" the second mapping reads the name from the first one's value. */
  lemma ProcessNotIdempotentOnValueKey()
    ensures var row := map["value" := Some(JNumber("1")), "k" := Some(JNumber("2"))];
      Process(Process(row, "value", "k"), "value", "k") != Process(row, "value", "k")
  {
    var row := map["value" := Some(JNumber("1")), "k" := Some(JNumber("2"))];
    assert Process(row, "value", "k")["name"] == Some(JNumber("1"));
    assert Process(Process(row, "value", "k"), "value", "k")["name"] == Some(JNumber("2"));
  }

  /** With the default keys, a row's existing fields are all kept as they are. */
  lemma DefaultKeysKeepFields(row: Row)
    ensures var r := Process(row, "name", "value");
      r.Keys == row.Keys + {"name", "value"} && forall k :: k in row ==> r[k] == row[k]
  {
  }

  // ---------------------------------------------------------------------------
  // Properties of renderChart.
  // ---------------------------------------------------------------------------

  /** The conditions under which renderChart throws, and the rows it charts otherwise. */
  lemma RenderOutcome(chartData: Json)
    ensures var axes := AxesOf(Field(chartData, "x_axis"), Field(chartData, "y_axis"), Field(chartData, "y_axis_label"));
      var data := Field(chartData, "data");
      RenderChart(chartData).Some? <==>
        data.Some? && data.value.JArray? && axes.xKey.JString?
        && forall i :: 0 <= i < |data.value.items| ==> !data.value.items[i].JNull?
    ensures RenderChart(chartData).Some? ==>
      var axes := AxesOf(Field(chartData, "x_axis"), Field(chartData, "y_axis"), Field(chartData, "y_axis_label"));
      var items := Field(chartData, "data").value.items;
      var rows := RenderChart(chartData).value.data;
      |rows| == |items|
      && forall i :: 0 <= i < |items| ==> rows[i] == Process(Props(items[i]).value, axes.xKey.s, JsString(axes.yKey))
  {
    var axes := AxesOf(Field(chartData, "x_axis"), Field(chartData, "y_axis"), Field(chartData, "y_axis_label"));
    var data := Field(chartData, "data");
    if data.Some? && data.value.JArray? {
      ProcessDataShape(data.value.items, ValueString(axes.xKey), JsString(axes.yKey));
    }
  }

  /** 'pie' gives a pie chart, 'line' a line chart, and every other chart_type a bar chart. */
  lemma RenderKind(chartData: Json)
    requires RenderChart(chartData).Some?
    ensures var chart := RenderChart(chartData).value;
      var kind := Field(chartData, "chart_type");
      (chart.PieChart? <==> kind == Some(JString("pie")))
      && (chart.Cartesian? ==> (chart.line <==> kind == Some(JString("line"))))
  {
  }

  /** A bar or line chart names its series after the Y label, and its legend and tooltip show that label and the X key. */
  lemma RenderCartesianParts(chartData: Json)
    requires RenderChart(chartData).Some? && RenderChart(chartData).value.Cartesian?
    ensures var axes := AxesOf(Field(chartData, "x_axis"), Field(chartData, "y_axis"), Field(chartData, "y_axis_label"));
      var chart := RenderChart(chartData).value;
      axes.xKey.JString? && chart.seriesName == axes.yLabel && chart.legend == Legend(axes.yLabel, axes.xKey.s)
      && chart.tooltipLabel == TooltipLabel(axes.yLabel) && |chart.cells| == |chart.data|
      && forall i :: 0 <= i < |chart.cells| ==> chart.cells[i].fill == BarFillColor
  {
  }

  /** Every slice has one of the seven colours, slices seven apart share it, and seven neighbours all differ. */
  lemma PieColoursCycle(chartData: Json, i: nat, j: nat)
    requires RenderChart(chartData).Some? && RenderChart(chartData).value.PieChart?
    ensures var cells := RenderChart(chartData).value.cells;
      |cells| == |RenderChart(chartData).value.data|
      && (i < |cells| ==> cells[i].fill in PieColors)
      && (i + 7 < |cells| ==> cells[i + 7].fill == cells[i].fill)
      && (i < j < |cells| && j < i + 7 ==> cells[i].fill != cells[j].fill)
  {
    var cells := RenderChart(chartData).value.cells;
    if i + 7 < |cells| {
      assert (i + 7) % 7 == i % 7;
    }
    if i < j < |cells| && j < i + 7 {
      assert i % 7 != j % 7;
      assert forall a, b :: 0 <= a < b < 7 ==> PieColors[a] != PieColors[b];
    }
  }

  /** The X legend entry spells the X key with spaces for underscores, and has no underscore left. */
  lemma LegendXText(chartData: Json)
    requires RenderChart(chartData).Some? && RenderChart(chartData).value.Cartesian?
    ensures var axes := AxesOf(Field(chartData, "x_axis"), Field(chartData, "y_axis"), Field(chartData, "y_axis_label"));
      var x := RenderChart(chartData).value.legend[1];
      axes.xKey.JString? && x == "Eixo X: " + ReplaceChar(axes.xKey.s, '_', ' ')
      && '_' !in x && |x| == 8 + |axes.xKey.s|
      && forall k :: 0 <= k < |axes.xKey.s| && axes.xKey.s[k] != '_' ==> x[8 + k] == axes.xKey.s[k]
  {
  }

  // ---------------------------------------------------------------------------
  // Concrete replies.
  // ---------------------------------------------------------------------------

  const FreightRow := JObject(map["uf_destino" := JString("SP"), "valor_total_frete" := JNumber("15000.00")])

  /** A chart reply in the shape the answer prompt prescribes: freight by destination state. */
  const FreightReply := JObject(map[
    "chart_type" := JString("bar"), "title" := JString("Frete por estado"), "data" := JArray([FreightRow]),
    "x_axis" := JString("uf_destino"), "y_axis" := JArray([JString("valor_total_frete")]),
    "y_axis_label" := JString("Valor do Frete (R$)")])

  lemma FreightAxes()
    ensures Field(FreightReply, "data") == Some(JArray([FreightRow]))
    ensures Field(FreightReply, "chart_type") == Some(JString("bar"))
    ensures AxesOf(Field(FreightReply, "x_axis"), Field(FreightReply, "y_axis"), Field(FreightReply, "y_axis_label"))
      == Axes(JString("uf_destino"), Some(JString("valor_total_frete")), Some(JString("Valor do Frete (R$)")))
  {
    assert Field(FreightReply, "x_axis") == Some(JString("uf_destino"));
    assert Field(FreightReply, "y_axis") == Some(JArray([JString("valor_total_frete")]));
    assert Field(FreightReply, "y_axis_label") == Some(JString("Valor do Frete (R$)"));
  }

  lemma FreightLegend()
    ensures Legend(Some(JString("Valor do Frete (R$)")), "uf_destino")
      == ["Eixo Y: Valor do Frete (R$)", "Eixo X: uf destino"]
  {
    assert ReplaceChar("uf_destino", '_', ' ') == "uf destino";
    assert "Eixo Y: " + "Valor do Frete (R$)" == "Eixo Y: Valor do Frete (R$)";
    assert "Eixo X: " + "uf destino" == "Eixo X: uf destino";
  }

  /** The freight-by-state reply draws one bar, named SP, of value 15000.00. */
  lemma ExampleFreightByState()
    ensures var chart := RenderChart(FreightReply);
      chart.Some? && chart.value.Cartesian? && !chart.value.line && |chart.value.data| == 1
      && chart.value.data[0]["name"] == Some(JString("SP"))
      && chart.value.data[0]["value"] == Some(JNumber("15000.00"))
      && chart.value.legend == ["Eixo Y: Valor do Frete (R$)", "Eixo X: uf destino"]
  {
    FreightAxes();
    FreightLegend();
    var yLabel := Some(JString("Valor do Frete (R$)"));
    ProcessDataShape([FreightRow], "uf_destino", "valor_total_frete");
    ProcessedObjectRow(FreightRow.fields, "uf_destino", "valor_total_frete");
    var rows := ProcessData([FreightRow], "uf_destino", "valor_total_frete");
    assert rows.Some? && rows.value[0] == ProcessItem(FreightRow, "uf_destino", "valor_total_frete").value;
    assert RenderChart(FreightReply) == Some(Cartesian(false, rows.value, yLabel, Legend(yLabel, "uf_destino"),
                                                      TooltipLabel(yLabel), BarCells(1)));
  }

  /** An empty y_axis list is truthy: the value is read from the property named "undefined". */
  lemma ExampleEmptyYAxis(row: map<string, Json>)
    ensures var reply := JObject(map["data" := JArray([JObject(row)]), "y_axis" := JArray([])]);
      var chart := RenderChart(reply);
      chart.Some? && chart.value.Cartesian?
      && chart.value.data[0]["value"] == (if "undefined" in row then Some(row["undefined"]) else None)
      && chart.value.legend == ["Eixo Y: undefined", "Eixo X: name"]
  {
    var reply := JObject(map["data" := JArray([JObject(row)]), "y_axis" := JArray([])]);
    var axes := AxesOf(Field(reply, "x_axis"), Field(reply, "y_axis"), Field(reply, "y_axis_label"));
    assert Field(reply, "x_axis") == None && Field(reply, "y_axis_label") == None;
    assert Field(reply, "y_axis") == Some(JArray([]));
    assert axes == Axes(JString("name"), None, None);
    assert Field(reply, "data") == Some(JArray([JObject(row)]));
    ProcessDataShape([JObject(row)], "name", "undefined");
    ProcessedObjectRow(row, "name", "undefined");
    assert ReplaceChar("name", '_', ' ') == "name";
    var rows := ProcessData([JObject(row)], "name", "undefined");
    assert rows.Some? && rows.value[0] == ProcessItem(JObject(row), "name", "undefined").value;
    assert RenderChart(reply) == Some(Cartesian(false, rows.value, None, Legend(None, "name"),
                                                TooltipLabel(None), BarCells(1)));
    assert "Eixo Y: " + "undefined" == "Eixo Y: undefined";
    assert "Eixo X: " + "name" == "Eixo X: name";
    assert Legend(None, "name") == ["Eixo Y: undefined", "Eixo X: name"];
  }

  /** A truthy X key that is not a string makes renderChart throw; a zero falls back to 'name'. */
  lemma ExampleNumericXAxis()
    ensures RenderChart(JObject(map["data" := JArray([]), "x_axis" := JNumber("5")])).None?
    ensures RenderChart(JObject(map["data" := JArray([]), "x_axis" := JNumber("0")])).Some?
  {
  }
}

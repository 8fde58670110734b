/** The formula builder (components/metrics/MetricBuilder.tsx): the list of
    metrics a formula can mention, the preview computed on sample rows, and
    the form handlers that compose the formula and save it. The form's React
    state is a value; each handler maps the current state to the next. */
module MetricBuilder {
  import opened Common
  import opened Strings
  import opened Formula

  /** An entry of a select box: what is shown and what is inserted. */
  datatype SelectOption = SelectOption(caption: string, value: string)

  const AvailableMetrics: seq<SelectOption> :=
    [SelectOption("Price", "price"), SelectOption("Volume", "volume"), SelectOption("Market Cap", "marketCap")]

  const AvailableOperations: seq<SelectOption> :=
    [SelectOption("Add (+)", "+"), SelectOption("Subtract (-)", "-"), SelectOption("Multiply (×)", "*"),
     SelectOption("Divide (÷)", "/"), SelectOption("Square Root", "sqrt"), SelectOption("Log", "log10"),
     SelectOption("Absolute Value", "abs")]

  /** The token the metric selector inserts for a saved metric. */
  function CustomToken(id: string): string {
    "custom." + id
  }

  /** The name under which the preview binds a saved metric's value. */
  function CustomBinding(id: string): string {
    "custom_" + id
  }

  /** allMetrics: the three built-in metrics, then one entry per saved
      metric, labelled by its name. */
  function AllMetrics(saved: seq<CustomMetric>): (r: seq<SelectOption>)
    ensures |r| == |AvailableMetrics| + |saved|
    ensures r[..|AvailableMetrics|] == AvailableMetrics
    ensures forall k :: 0 <= k < |saved| ==>
      r[|AvailableMetrics| + k] == SelectOption(saved[k].name, CustomToken(saved[k].id))
  {
    AvailableMetrics + seq(|saved|, k requires 0 <= k < |saved| => SelectOption(saved[k].name, CustomToken(saved[k].id)))
  }

  /** The token a saved metric inserts is never the name the preview binds
      it to, so a formula built from the selector does not see the saved
      metric's value under that token. */
  lemma TokenIsNotBinding(id: string, id': string)
    ensures CustomToken(id) != CustomBinding(id')
  {
    assert CustomToken(id)[6] == '.';
    assert CustomBinding(id')[6] == '_';
  }

  /* The preview. */

  /** The scope every preview row starts from: the row's own price, volume
      and marketCap, 0 when absent or falsy. */
  function BaseScope(point: Value): (r: map<string, Value>)
    requires point != Null
    ensures r.Keys == {"price", "volume", "marketCap"}
    ensures r["price"] == OptOrZero(Prop(point, "price"))
    ensures r["volume"] == OptOrZero(Prop(point, "volume"))
    ensures r["marketCap"] == OptOrZero(Prop(point, "marketCap"))
  {
    map["price" := OptOrZero(Prop(point, "price")),
        "volume" := OptOrZero(Prop(point, "volume")),
        "marketCap" := OptOrZero(Prop(point, "marketCap"))]
  }

  /** What a saved metric is bound to: its value, or 0 when it threw. */
  function Bound(o: Option<Value>): Value {
    if o.Some? then o.value else Num(0.0)
  }

  /** The scope after the saved metrics, in list order, have each been
      evaluated in the scope built so far and bound under custom_<id>. */
  function ChainedScope(base: map<string, Value>, saved: seq<CustomMetric>, eval: Evaluator): map<string, Value>
    decreases |saved|
  {
    if saved == [] then base
    else
      var before := ChainedScope(base, saved[..|saved| - 1], eval);
      var m := saved[|saved| - 1];
      before[CustomBinding(m.id) := Bound(eval(m.formula, Scope(before, None)))]
  }

  /** The forEach over the saved metrics, updating the scope in place. */
  method BuildScope(base: map<string, Value>, saved: seq<CustomMetric>, eval: Evaluator)
    returns (scope: map<string, Value>)
    ensures scope == ChainedScope(base, saved, eval)
  {
    scope := base;
    var k := 0;
    while k < |saved|
      invariant 0 <= k <= |saved|
      invariant scope == ChainedScope(base, saved[..k], eval)
    {
      var m := saved[k];
      var v := eval(m.formula, Scope(scope, None));
      if v.Some? {
        scope := scope[CustomBinding(m.id) := v.value];
      } else {
        scope := scope[CustomBinding(m.id) := Num(0.0)];
      }
      assert saved[..k + 1][..k] == saved[..k];
      k := k + 1;
    }
    assert saved[..k] == saved;
  }

  /** The chained scope only adds custom_<id> bindings: every other key keeps
      its base value. */
  lemma {:induction false} ChainKeepsOtherKeys(base: map<string, Value>, saved: seq<CustomMetric>,
                                               eval: Evaluator, k: string)
    requires forall m :: m in saved ==> k != CustomBinding(m.id)
    ensures Get(ChainedScope(base, saved, eval), k) == Get(base, k)
    decreases |saved|
  {
    if saved != [] {
      assert saved[|saved| - 1] in saved;
      assert forall m :: m in saved[..|saved| - 1] ==> m in saved;
      ChainKeepsOtherKeys(base, saved[..|saved| - 1], eval, k);
    }
  }

  /** The built-in variables are never shadowed by a saved metric. */
  lemma ChainKeepsBase(point: Value, saved: seq<CustomMetric>, eval: Evaluator)
    requires point != Null
    ensures var s := ChainedScope(BaseScope(point), saved, eval);
      Get(s, "price") == Some(OptOrZero(Prop(point, "price")))
      && Get(s, "volume") == Some(OptOrZero(Prop(point, "volume")))
      && Get(s, "marketCap") == Some(OptOrZero(Prop(point, "marketCap")))
  {
    forall k | k in {"price", "volume", "marketCap"}
      ensures Get(ChainedScope(BaseScope(point), saved, eval), k) == Get(BaseScope(point), k)
    {
      forall m | m in saved ensures k != CustomBinding(m.id) {
        assert CustomBinding(m.id)[0] == 'c';
      }
      ChainKeepsOtherKeys(BaseScope(point), saved, eval, k);
    }
  }

  /** Later saved metrics see earlier ones: the metric at position j, when
      no later metric has its id, is bound to what its formula gave in the
      scope holding the base and the metrics before it. */
  lemma {:induction false} ChainBindsEarlierResults(base: map<string, Value>, saved: seq<CustomMetric>,
                                                    eval: Evaluator, j: nat)
    requires j < |saved|
    requires forall k :: j < k < |saved| ==> saved[k].id != saved[j].id
    ensures CustomBinding(saved[j].id) in ChainedScope(base, saved, eval)
    ensures ChainedScope(base, saved, eval)[CustomBinding(saved[j].id)]
         == Bound(eval(saved[j].formula, Scope(ChainedScope(base, saved[..j], eval), None)))
    decreases |saved|
  {
    if j < |saved| - 1 {
      var init := saved[..|saved| - 1];
      ChainBindsEarlierResults(base, init, eval, j);
      assert init[..j] == saved[..j];
      assert saved[|saved| - 1].id != saved[j].id;
      var id := saved[|saved| - 1].id;
      assert CustomBinding(id) != CustomBinding(saved[j].id) by {
        assert CustomBinding(id)[7..] == id && CustomBinding(saved[j].id)[7..] == saved[j].id;
      }
    } else {
      assert saved[..|saved| - 1] == saved[..j];
    }
  }

  /** One point of the preview: the sample row's date and the formula's
      value, null when it threw on this row. */
  datatype PreviewPoint = PreviewPoint(date: Option<Value>, value: Value)

  /** What the preview effect leaves behind: nothing evaluated (formula too
      short or no sample data; the preview is cleared and the error kept),
      an exception outside the per-formula try blocks (the preview is
      cleared and an "Invalid formula: ..." error set), or the points, with
      the error cleared. */
  datatype PreviewOutcome = Skipped | Failed | Ready(points: seq<PreviewPoint>)

  function PreviewOf(formula: string, point: Value, saved: seq<CustomMetric>, eval: Evaluator): PreviewPoint
    requires point != Null
  {
    var o := eval(formula, Scope(ChainedScope(BaseScope(point), saved, eval), None));
    PreviewPoint(Prop(point, "date"), if o.Some? then o.value else Null)
  }

  /** The preview effect. Reading `price` of a null sample row throws a
      TypeError that no inner try catches. */
  function Preview(formula: string, sample: seq<Value>, saved: seq<CustomMetric>, eval: Evaluator): (r: PreviewOutcome)
    ensures r.Skipped? <==> formula == "" || |formula| < 3 || sample == []
    ensures r.Failed? <==> !r.Skipped? && Null in sample
    ensures r.Ready? ==> |r.points| == |sample|
    ensures r.Ready? ==> forall k :: 0 <= k < |sample| ==>
      sample[k] != Null && r.points[k] == PreviewOf(formula, sample[k], saved, eval)
  {
    if formula == "" || |formula| < 3 || sample == [] then Skipped
    else if Null in sample then Failed
    else Ready(seq(|sample|, k requires 0 <= k < |sample| => PreviewOf(formula, sample[k], saved, eval)))
  }

  /** A formula that throws on one row makes that row's value null and
      affects no other row: the value of row k depends on row k alone. */
  lemma PreviewRowsIndependent(formula: string, a: seq<Value>, b: seq<Value>, saved: seq<CustomMetric>,
                               eval: Evaluator, k: nat)
    requires Preview(formula, a, saved, eval).Ready? && Preview(formula, b, saved, eval).Ready?
    requires k < |a| && k < |b| && a[k] == b[k]
    ensures Preview(formula, a, saved, eval).points[k] == Preview(formula, b, saved, eval).points[k]
  {
  }

  /** A row's value is null exactly when the formula threw on it or
      evaluated to null, and its date is the row's date. */
  lemma PreviewPointMeaning(formula: string, sample: seq<Value>, saved: seq<CustomMetric>, eval: Evaluator, k: nat)
    requires Preview(formula, sample, saved, eval).Ready? && k < |sample|
    ensures sample[k] != Null
    ensures var p := Preview(formula, sample, saved, eval).points[k];
      var o := eval(formula, Scope(ChainedScope(BaseScope(sample[k]), saved, eval), None));
      p.date == Prop(sample[k], "date") && (p.value == Null <==> o.None? || o.value == Null)
  {
  }

  /* The form handlers. */

  /** The form's state: the text fields, the error message, the preview and
      the two select boxes ("" = nothing selected). */
  datatype Form = Form(name: string, formula: string, description: string, error: Option<string>,
                       preview: Option<seq<PreviewPoint>>, selectedMetric: string, selectedOperation: string)

  /** A metric handed to onSave, before it gets an id and a date. */
  datatype Draft = Draft(name: string, formula: string, description: string)

  /** The text `token` appended to a formula: the token alone in an empty
      formula, otherwise after a space. */
  function Append(formula: string, token: string): (r: string)
    ensures formula == "" ==> r == token
    ensures formula != "" ==> StartsWith(r, formula + " ") && r[|formula| + 1..] == token
    ensures EndsWith(r, token)
  {
    if formula == "" then token else formula + " " + token
  }

  /** addMetricToFormula: nothing without a selection; otherwise the token
      is appended and the selection cleared. */
  function AddMetricToFormula(f: Form): (r: Form)
    ensures f.selectedMetric == "" ==> r == f
    ensures f.selectedMetric != "" ==>
      r == f.(formula := Append(f.formula, f.selectedMetric), selectedMetric := "")
  {
    if f.selectedMetric == "" then f
    else f.(formula := Append(f.formula, f.selectedMetric), selectedMetric := "")
  }

  /** The text inserted for an operation: a call `op() ` when the value
      contains "(", otherwise `op `. */
  function OperationText(op: string): (r: string)
    ensures '(' in op ==> r == op + "() "
    ensures '(' !in op ==> r == op + " "
  {
    if '(' in op then op + "() " else op + " "
  }

  /** None of the offered operations contains "(", so choosing one always
      inserts the operator followed by a space (sqrt, log10 and abs come
      without parentheses). */
  lemma OperationsInsertPlainText(k: nat)
    requires k < |AvailableOperations|
    ensures OperationText(AvailableOperations[k].value) == AvailableOperations[k].value + " "
  {
    var v := AvailableOperations[k].value;
    assert forall j :: 0 <= j < |v| ==> v[j] != '(';
  }

  /** addOperationToFormula: nothing without a selection; otherwise the
      operation's text is appended and the selection cleared. */
  function AddOperationToFormula(f: Form): (r: Form)
    ensures f.selectedOperation == "" ==> r == f
    ensures f.selectedOperation != "" ==>
      r == f.(formula := Append(f.formula, OperationText(f.selectedOperation)), selectedOperation := "")
  {
    if f.selectedOperation == "" then f
    else f.(formula := Append(f.formula, OperationText(f.selectedOperation)), selectedOperation := "")
  }

  const RequiredMessage := "Name and formula are required"
  const InvalidMessage := "Please create a valid formula"

  /** handleSave: the new form and the draft passed to onSave, if any. */
  function HandleSave(f: Form): (r: (Form, Option<Draft>))
    ensures r.1.Some? <==> f.name != "" && f.formula != "" && f.preview.Some?
    ensures r.1.Some? ==> r.1.value == Draft(f.name, f.formula, f.description)
    ensures r.1.Some? ==> r.0 == f.(name := "", formula := "", description := "", error := None)
    ensures (f.name == "" || f.formula == "") ==> r.0 == f.(error := Some(RequiredMessage))
    ensures f.name != "" && f.formula != "" && f.preview.None? ==> r.0 == f.(error := Some(InvalidMessage))
  {
    if f.name == "" || f.formula == "" then (f.(error := Some(RequiredMessage)), None)
    else if f.preview.None? then (f.(error := Some(InvalidMessage)), None)
    else (f.(name := "", formula := "", description := "", error := None),
          Some(Draft(f.name, f.formula, f.description)))
  }

  /** Adding a metric and then an operation leaves the formula as the old
      one, the metric token and the operation text, separated by spaces. */
  lemma ComposeFormula(f: Form)
    requires f.selectedMetric != "" && f.selectedOperation != ""
    ensures AddOperationToFormula(AddMetricToFormula(f)).formula
         == Append(Append(f.formula, f.selectedMetric), OperationText(f.selectedOperation))
    ensures AddOperationToFormula(AddMetricToFormula(f)).selectedMetric == ""
    ensures AddOperationToFormula(AddMetricToFormula(f)).selectedOperation == ""
  {
  }

  /** The form a save leaves behind cannot be saved again until a name and
      a formula are entered anew. */
  lemma SavedFormIsCleared(f: Form)
    requires HandleSave(f).1.Some?
    ensures HandleSave(HandleSave(f).0).1.None?
    ensures HandleSave(HandleSave(f).0).0.error == Some(RequiredMessage)
  {
  }
}

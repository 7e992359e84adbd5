/**
 * The two bar traces of the MAPE comparison chart
 * (`createBarTraces` in docs/javascripts/mape_barplot.js).  Each model's
 * MAPE object is the ordered list of its (duration, MAPE) entries, in the
 * order `Object.keys` and `Object.values` enumerate them.  MAPE values are
 * exact reals.
 */
module MapeBarplot {
  import opened Wrappers

  datatype Entry = Entry(duration: string, mape: real)

  /** The response body: one MAPE object per model. */
  datatype MapeData = MapeData(entsoeModel: seq<Entry>, ourModel: seq<Entry>)

  /** The `error_y` field of a bar trace. */
  datatype ErrorY = ErrorY(kind: string, values: seq<real>, visible: bool)

  datatype BarTrace = BarTrace(x: seq<string>, y: seq<real>, name: string, kind: string, errorY: Option<ErrorY>)

  const Week := "1 week"
  const Month := "1 month"

  /** Share of the MAPE drawn as the error bar of the week and month bars. */
  const ErrorShare: real := 0.05

  const EntsoeName := "ENTSO-E's Model"
  const OurName := "Our Model"

  /** The duration keys whose bars carry an error bar. */
  predicate IsLongHorizon(key: string) {
    key in {"7d", "4w", Week, Month}
  }

  /** The label drawn under a bar for a duration key. */
  function Relabel(duration: string): (shown: string)
    ensures shown == Week <==> duration == "7d" || duration == Week
    ensures shown == Month <==> duration == "4w" || duration == Month
    ensures duration != "7d" && duration != "4w" ==> shown == duration
  {
    if duration == "7d" then Week
    else if duration == "4w" then Month
    else duration
  }

  /** `Object.keys(m).map(...)`: the labels of the bars, in entry order. */
  function Durations(entries: seq<Entry>): (labels: seq<string>)
    ensures |labels| == |entries|
    ensures forall i :: 0 <= i < |entries| ==> (labels[i] in {Week, Month} <==> IsLongHorizon(entries[i].duration))
    ensures forall i :: 0 <= i < |entries| ==> (labels[i] == Week <==> entries[i].duration in {"7d", Week})
    ensures forall i :: 0 <= i < |entries| ==> (labels[i] == Month <==> entries[i].duration in {"4w", Month})
    ensures forall i :: 0 <= i < |entries| ==> !IsLongHorizon(entries[i].duration) ==> labels[i] == entries[i].duration
  {
    seq(|entries|, i requires 0 <= i < |entries| => Relabel(entries[i].duration))
  }

  /** `Object.values(m)`: the heights of the bars, in entry order. */
  function Mapes(entries: seq<Entry>): (values: seq<real>)
    ensures |values| == |entries|
    ensures forall i :: 0 <= i < |entries| ==> values[i] == entries[i].mape
  {
    seq(|entries|, i requires 0 <= i < |entries| => entries[i].mape)
  }

  /** Relabelling the labels again changes nothing. */
  lemma RelabelIdempotent(duration: string)
    ensures Relabel(Relabel(duration)) == Relabel(duration)
  {
  }

  lemma DurationsIdempotent(entries: seq<Entry>)
    ensures var relabelled := seq(|entries|, i requires 0 <= i < |entries| => Entry(Durations(entries)[i], entries[i].mape));
      Durations(relabelled) == Durations(entries)
  {
  }

  /** The error bar of each of our bars: a share of its MAPE, or 0. */
  function ErrorBars(durations: seq<string>, mapes: seq<real>): (bars: seq<real>)
    requires |mapes| == |durations|
    ensures |bars| == |durations|
    ensures forall i :: 0 <= i < |bars| ==> (durations[i] in {Week, Month} ==> bars[i] == mapes[i] / 20.0)
    ensures forall i :: 0 <= i < |bars| ==> (durations[i] !in {Week, Month} ==> bars[i] == 0.0)
  {
    seq(|durations|, i requires 0 <= i < |durations| =>
      if durations[i] == Week || durations[i] == Month then ErrorShare * mapes[i] else 0.0)
  }

  function CreateBarTraces(data: MapeData): (traces: seq<BarTrace>)
    ensures |traces| == 2
    ensures traces[0].name == EntsoeName && traces[1].name == OurName
    ensures traces[0].kind == "bar" && traces[1].kind == "bar"
    ensures traces[0].errorY.None? && traces[1].errorY.Some?
    ensures traces[1].errorY.value.kind == "data" && traces[1].errorY.value.visible
    ensures |traces[0].x| == |traces[0].y| == |data.entsoeModel|
    ensures |traces[1].x| == |traces[1].y| == |traces[1].errorY.value.values| == |data.ourModel|
  {
    var durationsEntsoe := Durations(data.entsoeModel);
    var mapeEntsoe := Mapes(data.entsoeModel);
    var durationsOurModel := Durations(data.ourModel);
    var mapeOurModel := Mapes(data.ourModel);
    var errorBars := ErrorBars(durationsOurModel, mapeOurModel);
    var entsoeTrace := BarTrace(durationsEntsoe, mapeEntsoe, EntsoeName, "bar", None);
    var ourModelTrace := BarTrace(durationsOurModel, mapeOurModel, OurName, "bar", Some(ErrorY("data", errorBars, true)));
    [entsoeTrace, ourModelTrace]
  }

  /** Bar i of each trace is the i-th entry of that model, relabelled. */
  lemma BarsPairEntries(data: MapeData)
    ensures var traces := CreateBarTraces(data);
      && (forall i :: 0 <= i < |data.entsoeModel| ==>
            traces[0].x[i] == Relabel(data.entsoeModel[i].duration) && traces[0].y[i] == data.entsoeModel[i].mape)
      && (forall i :: 0 <= i < |data.ourModel| ==>
            traces[1].x[i] == Relabel(data.ourModel[i].duration) && traces[1].y[i] == data.ourModel[i].mape)
  {
  }

  /**
   * Our bar i has an error bar of 5% of its MAPE exactly when its duration
   * key stands for a week or a month, and none otherwise.
   */
  lemma ErrorBarAt(data: MapeData, i: nat)
    requires i < |data.ourModel|
    ensures var e := CreateBarTraces(data)[1].errorY.value.values;
      && (IsLongHorizon(data.ourModel[i].duration) ==> e[i] == data.ourModel[i].mape / 20.0)
      && (!IsLongHorizon(data.ourModel[i].duration) ==> e[i] == 0.0)
  {
  }

  /** An error bar never exceeds a twentieth of a non-negative MAPE. */
  lemma ErrorBarBounded(data: MapeData, i: nat)
    requires i < |data.ourModel| && 0.0 <= data.ourModel[i].mape
    ensures var e := CreateBarTraces(data)[1].errorY.value.values;
      0.0 <= e[i] <= data.ourModel[i].mape / 20.0
  {
  }
}

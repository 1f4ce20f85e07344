/** The few shapes of the Prometheus client library the exporter uses: metric
    descriptors, value kinds, and the channel that descriptors and metrics are
    sent on. */
module Prometheus {

  /** A metric descriptor: fully-qualified name, help text and the names of its
      variable labels (the exporter uses no constant labels). */
  datatype Desc = Desc(fqName: string, help: string, variableLabels: seq<string>)

  datatype ValueType = CounterValue | GaugeValue

  /** A sample value. The exporter's values are either whole numbers (the 0/1
      liveness flags and the request, error and subrequest sums) or float64
      quantiles passed through untouched, kept as their bit pattern. */
  datatype Value = IntValue(n: int) | FloatValue(bits: bv64)

  /** BuildFQName joins the non-empty parts among namespace, subsystem and name
      with "_"; an empty name gives an empty result. */
  function BuildFQName(namespace: string, subsystem: string, name: string): (fq: string)
    ensures name == "" ==> fq == ""
    ensures name != "" && namespace != "" && subsystem == "" ==> fq == namespace + "_" + name
  {
    if name == "" then ""
    else if namespace != "" && subsystem != "" then namespace + "_" + subsystem + "_" + name
    else if namespace != "" then namespace + "_" + name
    else if subsystem != "" then subsystem + "_" + name
    else name
  }

  /** A channel as the sequence of values sent on it so far, in order. */
  class Channel<T> {
    var sent: seq<T>

    constructor ()
      ensures sent == []
    {
      sent := [];
    }

    method Send(x: T)
      modifies this
      ensures sent == old(sent) + [x]
    {
      sent := sent + [x];
    }
  }
}

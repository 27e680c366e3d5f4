/**
 The values that travel through the pipeline: what a collector measures, the key a
 series is buffered under, and the batch that goes over the wire.
 */
module Telemetry {

  datatype Option<+T> = None | Some(value: T)

  /** An IEEE double seen as a value that is carried around; rounding is not modelled. */
  datatype Double = NaN | PosInf | NegInf | Finite(r: real)

  /** `Sample` of the agent's buffer: a signed 64-bit timestamp and a value. */
  datatype Sample = Sample(timestampNs: int, value: Double)

  /** The alternatives of the wire's `DeviceID` oneof (all fields are uint32). */
  datatype Device =
    | Gpu(pciDomain: nat, pciBus: nat, pciDevice: nat, pciFunction: nat)
    | Cpu(socketIndex: nat, coreIndex: nat)
    | Network(ifindex: nat)
    | Disk(major: nat, minor: nat)

  /** What a collector hands to the buffer; `None` is a metric without a device. */
  datatype Metric = Metric(metricType: int, device: Option<Device>, value: Double, timestamp: int)

  /** The flat key a series is buffered under. */
  datatype BufferKey = BufferKey(
    metricType: int,
    pciDomain: nat, pciBus: nat, pciDevice: nat, pciFunction: nat,
    socketIndex: nat, coreIndex: nat,
    ifindex: nat,
    diskMajor: nat, diskMinor: nat)

  /** `MetricBatch`; `device == None` is a header whose oneof is not set. */
  datatype Batch = Batch(
    id: nat, metricType: int, device: Option<Device>, timestampsNs: seq<nat>, values: seq<Double>)

  const METRIC_TYPE_UNSPECIFIED := 0
  const TWO_8 := 0x100
  const TWO_16 := 0x1_0000
  const TWO_32 := 0x1_0000_0000
  const TWO_64 := 0x1_0000_0000_0000_0000

  function Max(a: int, b: int): int {
    if a >= b then a else b
  }

  /** No element occurs twice. */
  ghost predicate Distinct<T>(s: seq<T>) {
    forall i, j :: 0 <= i < j < |s| ==> s[i] != s[j]
  }

  /** The elements of `s` at the given positions. */
  ghost function Pick<T>(s: seq<T>, at: seq<nat>): seq<T>
    requires forall i :: 0 <= i < |at| ==> at[i] < |s|
  {
    seq(|at|, i requires 0 <= i < |at| => s[at[i]])
  }

  ghost predicate StrictlyIncreasing(s: seq<nat>) {
    forall i, j :: 0 <= i < j < |s| ==> s[i] < s[j]
  }
}

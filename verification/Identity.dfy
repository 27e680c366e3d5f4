/**
 Series identity from the collector to the wire: the key a metric is buffered under, the
 device rebuilt from that key when a batch is made, and exactly when the two agree.
 */
module Identity {
  import opened Telemetry

  const NO_DEVICE_KEY := BufferKey(0, 0, 0, 0, 0, 0, 0, 0, 0, 0)

  /** `MetricsBuffer::MakeBufferKey`: the narrow fields truncate like the casts do. */
  function MakeBufferKey(m: Metric): BufferKey {
    var key := NO_DEVICE_KEY.(metricType := m.metricType);
    match m.device
    case None => key
    case Some(Gpu(domain, bus, device, function_)) =>
      key.(pciDomain := domain % TWO_16, pciBus := bus % TWO_8,
           pciDevice := device % TWO_8, pciFunction := function_ % TWO_8)
    case Some(Cpu(socket, core)) =>
      key.(socketIndex := socket % TWO_8, coreIndex := core % TWO_16)
    case Some(Network(ifindex)) =>
      key.(ifindex := ifindex)
    case Some(Disk(major, minor)) =>
      key.(diskMajor := major, diskMinor := minor)
  }

  /** Which field of the key holds which field of the device, and what is left of it there; all
      other fields are zero. */
  lemma KeyFields(m: Metric)
    ensures
      var k := MakeBufferKey(m);
      && k.metricType == m.metricType
      && (match m.device
          case Some(Gpu(d, b, v, f)) => k.pciDomain == d % 65536 && k.pciBus == b % 256 && k.pciDevice == v % 256 && k.pciFunction == f % 256
          case _ => k.pciDomain == k.pciBus == k.pciDevice == k.pciFunction == 0)
      && (match m.device
          case Some(Cpu(s, c)) => k.socketIndex == s % 256 && k.coreIndex == c % 65536
          case _ => k.socketIndex == k.coreIndex == 0)
      && (match m.device case Some(Network(i)) => k.ifindex == i case _ => k.ifindex == 0)
      && (match m.device
          case Some(Disk(a, b)) => k.diskMajor == a && k.diskMinor == b
          case _ => k.diskMajor == k.diskMinor == 0)
  {
  }

  /** The device put into a batch header: the hundred-range of the type decides which
      fields of the key are used. */
  function DeviceOf(key: BufferKey): Option<Device> {
    if 100 <= key.metricType < 200 then Some(Cpu(key.socketIndex, key.coreIndex))
    else if 200 <= key.metricType < 300 then Some(Gpu(key.pciDomain, key.pciBus, key.pciDevice, key.pciFunction))
    else if 400 <= key.metricType < 500 then Some(Disk(key.diskMajor, key.diskMinor))
    else if 500 <= key.metricType < 600 then Some(Network(key.ifindex))
    else None
  }

  /** int64 nanoseconds stored into the wire's uint64 field. */
  function WireTime(ns: int): nat {
    ns % TWO_64
  }

  function WireTimes(samples: seq<Sample>): seq<nat> {
    seq(|samples|, i requires 0 <= i < |samples| => WireTime(samples[i].timestampNs))
  }

  function Values(samples: seq<Sample>): seq<Double> {
    seq(|samples|, i requires 0 <= i < |samples| => samples[i].value)
  }

  /** The batch that carries the given samples of a series. */
  function MakeBatch(id: nat, key: BufferKey, samples: seq<Sample>): Batch {
    Batch(id, key.metricType, DeviceOf(key), WireTimes(samples), Values(samples))
  }

  /** A batch carries the samples: values as they are, times as the wire's uint64 holds them. */
  ghost predicate BatchCarries(b: Batch, id: nat, key: BufferKey, samples: seq<Sample>) {
    && b.id == id && b.metricType == key.metricType && b.device == DeviceOf(key)
    && |b.timestampsNs| == |b.values| == |samples|
    && forall i :: 0 <= i < |samples| ==>
         && b.values[i] == samples[i].value
         && (0 <= samples[i].timestampNs < 0x8000_0000_0000_0000 ==> b.timestampsNs[i] == samples[i].timestampNs)
         && (-0x8000_0000_0000_0000 <= samples[i].timestampNs < 0 ==>
               b.timestampsNs[i] == samples[i].timestampNs + 0x1_0000_0000_0000_0000)
  }

  lemma MakeBatchCarries(id: nat, key: BufferKey, samples: seq<Sample>)
    ensures BatchCarries(MakeBatch(id, key, samples), id, key, samples)
  {
  }

  /** The device kind belongs to the hundred-range of the type and its fields fit the key;
      a metric without a device has a type outside the four device ranges. */
  predicate Faithful(metricType: int, device: Option<Device>) {
    match device
    case None => !(100 <= metricType < 300) && !(400 <= metricType < 600)
    case Some(Cpu(socket, core)) => 100 <= metricType < 200 && socket < TWO_8 && core < TWO_16
    case Some(Gpu(domain, bus, dev, fn)) =>
      200 <= metricType < 300 && domain < TWO_16 && bus < TWO_8 && dev < TWO_8 && fn < TWO_8
    case Some(Disk(_, _)) => 400 <= metricType < 500
    case Some(Network(_)) => 500 <= metricType < 600
  }

  /** The device survives key and batch header exactly for the faithful metrics. */
  lemma DeviceRoundTrip(m: Metric)
    ensures DeviceOf(MakeBufferKey(m)) == m.device <==> Faithful(m.metricType, m.device)
  {
    match m.device
    case None =>
    case Some(Gpu(domain, bus, dev, fn)) =>
      FitsIffUnchanged(domain, TWO_16);
      FitsIffUnchanged(bus, TWO_8);
      FitsIffUnchanged(dev, TWO_8);
      FitsIffUnchanged(fn, TWO_8);
    case Some(Cpu(socket, core)) =>
      FitsIffUnchanged(socket, TWO_8);
      FitsIffUnchanged(core, TWO_16);
    case Some(Network(_)) =>
    case Some(Disk(_, _)) =>
  }

  lemma FitsIffUnchanged(x: nat, m: nat)
    requires m > 0
    ensures x % m == x <==> x < m
  {
  }

  /** The collector of /proc/stat reports CPU utilisation (103) without a device, and RAPL
      reports package power for CPU 0:0: the former reaches the server as CPU 0:0 too. */
  lemma UtilisationGainsADevice(v: Double, t: int)
    ensures
      var m := Metric(103, None, v, t);
      && !Faithful(m.metricType, m.device)
      && DeviceOf(MakeBufferKey(m)) == Some(Cpu(0, 0))
      && MakeBufferKey(m) == MakeBufferKey(m.(device := Some(Cpu(0, 0))))
  {
    assert 0 % TWO_8 == 0 && 0 % TWO_16 == 0;
  }

  /** A key whose fields outside the type's own group are all zero. */
  predicate Clean(key: BufferKey) {
    var base := NO_DEVICE_KEY.(metricType := key.metricType);
    match DeviceOf(key)
    case None => key == base
    case Some(Cpu(s, c)) => key == base.(socketIndex := s, coreIndex := c)
    case Some(Gpu(d, b, v, f)) => key == base.(pciDomain := d, pciBus := b, pciDevice := v, pciFunction := f)
    case Some(Disk(a, b)) => key == base.(diskMajor := a, diskMinor := b)
    case Some(Network(i)) => key == base.(ifindex := i)
  }

  /** Among clean keys, type and rebuilt device determine the key. */
  lemma CleanKeysAreDetermined(k: BufferKey, l: BufferKey)
    requires Clean(k) && Clean(l)
    requires k.metricType == l.metricType && DeviceOf(k) == DeviceOf(l)
    ensures k == l
  {
  }

  /** Two faithful metrics share a buffer exactly if type and device are equal. */
  lemma KeyIdentifiesSeries(m: Metric, n: Metric)
    requires Faithful(m.metricType, m.device) && Faithful(n.metricType, n.device)
    ensures MakeBufferKey(m) == MakeBufferKey(n) <==> m.metricType == n.metricType && m.device == n.device
  {
    DeviceRoundTrip(m);
    DeviceRoundTrip(n);
  }

  // ----- What a key remembers of a device -----

  /** The device kind the hundred-range of a type stands for. */
  predicate OwnKind(metricType: int, device: Device) {
    match device
    case Cpu(_, _) => 100 <= metricType < 200
    case Gpu(_, _, _, _) => 200 <= metricType < 300
    case Disk(_, _) => 400 <= metricType < 500
    case Network(_) => 500 <= metricType < 600
  }

  /** What is left of a device once its fields are cut to the widths of the key; a device of
      zeros leaves the same key as none. */
  function Kept(device: Option<Device>): Option<Device> {
    match device
    case None => None
    case Some(Cpu(s, c)) => if s % TWO_8 == 0 && c % TWO_16 == 0 then None else Some(Cpu(s % TWO_8, c % TWO_16))
    case Some(Gpu(d, b, v, f)) =>
      if d % TWO_16 == 0 && b % TWO_8 == 0 && v % TWO_8 == 0 && f % TWO_8 == 0 then None
      else Some(Gpu(d % TWO_16, b % TWO_8, v % TWO_8, f % TWO_8))
    case Some(Disk(a, b)) => if a == 0 && b == 0 then None else device
    case Some(Network(i)) => if i == 0 then None else device
  }

  /** Two metrics share a buffer exactly if their types are equal and the same is left of
      their devices. */
  lemma BuffersCoincide(m: Metric, n: Metric)
    ensures MakeBufferKey(m) == MakeBufferKey(n) <==> m.metricType == n.metricType && Kept(m.device) == Kept(n.device)
  {
  }

  /** Keys are clean exactly if the device is absent, all zeros or of the type's kind; those of
      faithful metrics are. */
  lemma CleanKeysExactly(m: Metric)
    ensures Clean(MakeBufferKey(m)) <==> Kept(m.device).None? || OwnKind(m.metricType, m.device.value)
    ensures Faithful(m.metricType, m.device) ==> Clean(MakeBufferKey(m))
  {
  }

  /** Nothing of the device is left to see: it is of another kind than the type's, or all
      zeros, or absent. */
  predicate Unseen(m: Metric) {
    Kept(m.device).None? || !OwnKind(m.metricType, m.device.value)
  }

  /** Two metrics of one type have the same device rebuilt exactly if they share a buffer or
      nothing of either device is seen. */
  lemma RebuiltDevicesCoincide(m: Metric, n: Metric)
    requires m.metricType == n.metricType
    ensures DeviceOf(MakeBufferKey(m)) == DeviceOf(MakeBufferKey(n)) <==>
      Kept(m.device) == Kept(n.device) || (Unseen(m) && Unseen(n))
  {
    RebuiltAsNone(m);
    RebuiltAsNone(n);
  }

  lemma RebuiltAsNone(m: Metric)
    ensures DeviceOf(MakeBufferKey(m)) == DeviceOf(MakeBufferKey(m.(device := None))) <==> Unseen(m)
    ensures !Unseen(m) ==> DeviceOf(MakeBufferKey(m)) == Kept(m.device)
  {
  }
}

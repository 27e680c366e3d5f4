/**
 The dashboard's series identity: `seriesKey` prints type and device. Printing in base 10
 and in padded base 16 can be read back, so different series never share a name.
 */
module SeriesNames {
  import opened Telemetry
  import opened Identity

  const DIGITS := "0123456789abcdef"

  function DigitChar(d: nat): char
    requires d < 16
  {
    DIGITS[d]
  }

  /** The bases the dashboard prints in. */
  datatype Base = Ten | Sixteen {
    function Shift(n: nat): nat {
      if Ten? then 10 * n else 16 * n
    }

    function Quotient(n: nat): nat {
      if Ten? then n / 10 else n / 16
    }

    function Remainder(n: nat): (r: nat)
      ensures r < 16
    {
      if Ten? then n % 10 else n % 16
    }
  }

  /** `n.toString(base)`. */
  function Print(n: nat, base: Base): string
    decreases n
  {
    if base.Quotient(n) == 0 then [DigitChar(base.Remainder(n))]
    else Print(base.Quotient(n), base) + [DigitChar(base.Remainder(n))]
  }

  function Zeros(n: nat): string {
    seq(n, _ => '0')
  }

  /** `s.padStart(width, "0")`. */
  function PadStart(s: string, width: nat): string {
    if |s| < width then Zeros(width - |s|) + s else s
  }

  function Dec(n: nat): string {
    Print(n, Ten)
  }

  function Hex(n: nat, width: nat): string {
    PadStart(Print(n, Sixteen), width)
  }

  /** A metric type in a template string; unknown enum values may be negative. */
  function DecInt(n: int): string {
    if n < 0 then "-" + Dec(-n) else Dec(n)
  }

  /** The text of a GPU after its prefix. */
  function GpuText(d: nat, b: nat, v: nat, f: nat): string {
    Hex(d, 4) + ":" + (Hex(b, 2) + ":" + (Hex(v, 2) + "." + Dec(f)))
  }

  /** `formatDeviceId(device) ?? ""`. */
  function FormatDeviceId(device: Option<Device>): string {
    match device
    case None => ""
    case Some(Cpu(s, c)) => "CPU " + (Dec(s) + ":" + Dec(c))
    case Some(Gpu(d, b, v, f)) => "GPU " + GpuText(d, b, v, f)
    case Some(Network(i)) => "if" + Dec(i)
    case Some(Disk(a, b)) => "disk " + (Dec(a) + ":" + Dec(b))
  }

  function SeriesKey(metricType: int, device: Option<Device>): string {
    DecInt(metricType) + ":" + (":" + FormatDeviceId(device))
  }

  // ----- Reading back -----

  ghost function DigitValue(c: char): nat {
    if '0' <= c <= '9' then (c - '0') as nat
    else if 'a' <= c <= 'f' then 10 + (c - 'a') as nat
    else 0
  }

  ghost function Value(s: string, base: Base): nat {
    if s == "" then 0 else base.Shift(Value(s[..|s| - 1], base)) + DigitValue(s[|s| - 1])
  }

  predicate IsDigit(c: char) {
    '0' <= c <= '9' || 'a' <= c <= 'f'
  }

  lemma DigitReadsBack(d: nat)
    requires d < 16
    ensures DigitValue(DigitChar(d)) == d && IsDigit(DigitChar(d))
  {
    assert DIGITS[0] == '0' && DIGITS[1] == '1' && DIGITS[2] == '2' && DIGITS[3] == '3';
    assert DIGITS[4] == '4' && DIGITS[5] == '5' && DIGITS[6] == '6' && DIGITS[7] == '7';
    assert DIGITS[8] == '8' && DIGITS[9] == '9' && DIGITS[10] == 'a' && DIGITS[11] == 'b';
    assert DIGITS[12] == 'c' && DIGITS[13] == 'd' && DIGITS[14] == 'e' && DIGITS[15] == 'f';
  }

  lemma {:induction false} PrintHasDigits(n: nat, base: Base)
    ensures forall c :: c in Print(n, base) ==> IsDigit(c)
    decreases n
  {
    DigitReadsBack(base.Remainder(n));
    if base.Quotient(n) != 0 {
      PrintHasDigits(base.Quotient(n), base);
    }
  }

  lemma {:induction false} PrintReadsBack(n: nat, base: Base)
    ensures Value(Print(n, base), base) == n
    decreases n
  {
    var q, r := base.Quotient(n), base.Remainder(n);
    DigitReadsBack(r);
    if q == 0 {
      ValueOfAppend("", DigitChar(r), base);
      assert "" + [DigitChar(r)] == [DigitChar(r)];
    } else {
      PrintReadsBack(q, base);
      ValueOfAppend(Print(q, base), DigitChar(r), base);
    }
  }

  lemma ValueOfAppend(s: string, c: char, base: Base)
    ensures Value(s + [c], base) == base.Shift(Value(s, base)) + DigitValue(c)
  {
    assert (s + [c])[..|s|] == s;
  }

  lemma {:induction false} ZerosAddNothing(k: nat, s: string, base: Base)
    ensures Value(Zeros(k) + s, base) == Value(s, base)
    decreases |s|, k
  {
    if s == "" {
      assert Zeros(k) + s == Zeros(k);
      if k > 0 {
        assert Zeros(k)[..k - 1] == Zeros(k - 1);
        assert Zeros(k - 1) + "" == Zeros(k - 1);
        ZerosAddNothing(k - 1, "", base);
      }
    } else {
      var t := Zeros(k) + s;
      assert t[..|t| - 1] == Zeros(k) + s[..|s| - 1];
      ZerosAddNothing(k, s[..|s| - 1], base);
    }
  }

  lemma HexReadsBack(n: nat, width: nat)
    ensures Value(Hex(n, width), Sixteen) == n
    ensures forall c :: c in Hex(n, width) ==> IsDigit(c)
  {
    PrintReadsBack(n, Sixteen);
    PrintHasDigits(n, Sixteen);
    var s := Print(n, Sixteen);
    if |s| < width {
      ZerosAddNothing(width - |s|, s, Sixteen);
    }
  }

  lemma DecIsInjective(a: nat, b: nat)
    requires Dec(a) == Dec(b)
    ensures a == b
  {
    PrintReadsBack(a, Ten);
    PrintReadsBack(b, Ten);
  }

  lemma HexIsInjective(a: nat, b: nat, width: nat)
    requires Hex(a, width) == Hex(b, width)
    ensures a == b
  {
    HexReadsBack(a, width);
    HexReadsBack(b, width);
  }

  /** The first separator splits a text in one way only. */
  lemma SplitIsUnique(a: string, x: string, b: string, y: string, sep: char)
    requires a + [sep] + x == b + [sep] + y && sep !in a && sep !in b
    ensures a == b && x == y
  {
    var s := a + [sep] + x;
    assert s[|a|] == sep && s[|b|] == sep;
    assert a == s[..|a|] && b == s[..|b|];
    assert x == s[|a| + 1..] && y == s[|b| + 1..];
  }

  lemma DecHasNo(n: nat, c: char)
    requires !IsDigit(c)
    ensures c !in Dec(n)
  {
    PrintHasDigits(n, Ten);
  }

  lemma HexHasNo(n: nat, width: nat, c: char)
    requires !IsDigit(c)
    ensures c !in Hex(n, width)
  {
    HexReadsBack(n, width);
  }

  lemma PairIsInjective(a: nat, b: nat, c: nat, d: nat)
    requires Dec(a) + ":" + Dec(b) == Dec(c) + ":" + Dec(d)
    ensures a == c && b == d
  {
    DecHasNo(a, ':');
    DecHasNo(c, ':');
    SplitIsUnique(Dec(a), Dec(b), Dec(c), Dec(d), ':');
    DecIsInjective(a, c);
    DecIsInjective(b, d);
  }

  lemma GpuIsInjective(d: nat, b: nat, v: nat, f: nat, d': nat, b': nat, v': nat, f': nat)
    requires GpuText(d, b, v, f) == GpuText(d', b', v', f')
    ensures d == d' && b == b' && v == v' && f == f'
  {
    HexHasNo(d, 4, ':');
    HexHasNo(d', 4, ':');
    var busText, busText' := Hex(b, 2) + ":" + (Hex(v, 2) + "." + Dec(f)), Hex(b', 2) + ":" + (Hex(v', 2) + "." + Dec(f'));
    SplitIsUnique(Hex(d, 4), busText, Hex(d', 4), busText', ':');
    HexHasNo(b, 2, ':');
    HexHasNo(b', 2, ':');
    SplitIsUnique(Hex(b, 2), Hex(v, 2) + "." + Dec(f), Hex(b', 2), Hex(v', 2) + "." + Dec(f'), ':');
    HexHasNo(v, 2, '.');
    HexHasNo(v', 2, '.');
    SplitIsUnique(Hex(v, 2), Dec(f), Hex(v', 2), Dec(f'), '.');
    HexIsInjective(d, d', 4);
    HexIsInjective(b, b', 2);
    HexIsInjective(v, v', 2);
    DecIsInjective(f, f');
  }

  lemma DropPrefix(prefix: string, x: string, y: string)
    requires prefix + x == prefix + y
    ensures x == y
  {
    assert (prefix + x)[|prefix|..] == x;
    assert (prefix + y)[|prefix|..] == y;
  }

  lemma FormatIsInjective(d: Option<Device>, e: Option<Device>)
    requires FormatDeviceId(d) == FormatDeviceId(e)
    ensures d == e
  {
    var s, t := FormatDeviceId(d), FormatDeviceId(e);
    if d.None? || e.None? {
      assert s == "" || t == "";
    } else {
      assert s[0] == t[0];
      match (d.value, e.value)
      case (Cpu(a, b), Cpu(a', b')) =>
        DropPrefix("CPU ", Dec(a) + ":" + Dec(b), Dec(a') + ":" + Dec(b'));
        PairIsInjective(a, b, a', b');
      case (Gpu(a, b, v, f), Gpu(a', b', v', f')) =>
        DropPrefix("GPU ", GpuText(a, b, v, f), GpuText(a', b', v', f'));
        GpuIsInjective(a, b, v, f, a', b', v', f');
      case (Network(i), Network(i')) =>
        DropPrefix("if", Dec(i), Dec(i'));
        DecIsInjective(i, i');
      case (Disk(a, b), Disk(a', b')) =>
        DropPrefix("disk ", Dec(a) + ":" + Dec(b), Dec(a') + ":" + Dec(b'));
        PairIsInjective(a, b, a', b');
      case _ =>
    }
  }

  // ----- What the labels say -----

  /** Digits that read as `n`: at least `width` of them, and zeros in front only up to that. */
  ghost predicate Reads(s: string, base: Base, n: nat, width: nat) {
    && Value(s, base) == n && |s| >= width && (forall i :: 0 <= i < |s| ==> IsDigit(s[i]))
    && (|s| > width ==> s[0] != '0')
  }

  lemma {:induction false} NoLeadingZero(n: nat, base: Base)
    ensures |Print(n, base)| > 1 || n > 0 ==> Print(n, base)[0] != '0'
    decreases n
  {
    DigitReadsBack(base.Remainder(n));
    if base.Quotient(n) != 0 {
      NoLeadingZero(base.Quotient(n), base);
    }
  }

  lemma DecReads(n: nat)
    ensures Reads(Dec(n), Ten, n, 1)
  {
    PrintReadsBack(n, Ten);
    PrintHasDigits(n, Ten);
    NoLeadingZero(n, Ten);
  }

  lemma HexReads(n: nat, width: nat)
    requires width > 0
    ensures Reads(Hex(n, width), Sixteen, n, width)
  {
    HexReadsBack(n, width);
    NoLeadingZero(n, Sixteen);
  }

  /** A CPU's label is "CPU <socket>:<core>", in decimal. */
  lemma CpuLabel(socket: nat, core: nat) returns (s: string, c: string)
    ensures FormatDeviceId(Some(Cpu(socket, core))) == "CPU " + (s + ":" + c)
    ensures Reads(s, Ten, socket, 1) && Reads(c, Ten, core, 1)
  {
    DecReads(socket);
    DecReads(core);
    s, c := Dec(socket), Dec(core);
  }

  /** A disk's label is "disk <major>:<minor>", in decimal; a network interface's "if<index>". */
  lemma DiskLabel(major: nat, minor: nat) returns (a: string, b: string)
    ensures FormatDeviceId(Some(Disk(major, minor))) == "disk " + (a + ":" + b)
    ensures Reads(a, Ten, major, 1) && Reads(b, Ten, minor, 1)
  {
    DecReads(major);
    DecReads(minor);
    a, b := Dec(major), Dec(minor);
  }

  lemma NetworkLabel(ifindex: nat) returns (i: string)
    ensures FormatDeviceId(Some(Network(ifindex))) == "if" + i && Reads(i, Ten, ifindex, 1)
  {
    DecReads(ifindex);
    i := Dec(ifindex);
  }

  /** A GPU's label is "GPU <domain>:<bus>:<device>.<function>", the first three in hexadecimal
      padded to four, two and two digits, the last in decimal. */
  lemma GpuLabel(domain: nat, bus: nat, device: nat, fn: nat) returns (d: string, b: string, v: string, f: string)
    ensures FormatDeviceId(Some(Gpu(domain, bus, device, fn))) == "GPU " + (d + ":" + (b + ":" + (v + "." + f)))
    ensures Reads(d, Sixteen, domain, 4) && Reads(b, Sixteen, bus, 2) && Reads(v, Sixteen, device, 2) && Reads(f, Ten, fn, 1)
  {
    HexReads(domain, 4);
    HexReads(bus, 2);
    HexReads(device, 2);
    DecReads(fn);
    d, b, v, f := Hex(domain, 4), Hex(bus, 2), Hex(device, 2), Dec(fn);
  }

  /** A series' name is its type in decimal, two colons and the device's label, if any. */
  lemma NameLayout(metricType: int, device: Option<Device>) returns (n: string)
    ensures SeriesKey(metricType, device) == (if metricType < 0 then "-" + n else n) + ":" + (":" + FormatDeviceId(device))
    ensures Reads(n, Ten, if metricType < 0 then -metricType else metricType, 1)
    ensures device.None? ==> FormatDeviceId(device) == ""
  {
    n := Dec(if metricType < 0 then -metricType else metricType);
    DecReads(if metricType < 0 then -metricType else metricType);
  }

  lemma DecIntIsInjective(a: int, b: int)
    requires DecInt(a) == DecInt(b)
    ensures a == b
  {
    if a < 0 && b < 0 {
      DropPrefix("-", Dec(-a), Dec(-b));
      DecIsInjective(-a, -b);
    } else if a >= 0 && b >= 0 {
      DecIsInjective(a, b);
    } else {
      var n, m := if a < 0 then a else b, if a < 0 then b else a;
      assert DecInt(n)[0] == '-';
      DecHasNo(m, '-');
    }
  }

  lemma DecIntHasNoColon(a: int)
    ensures ':' !in DecInt(a)
  {
    DecHasNo(if a < 0 then -a else a, ':');
  }

  /** Two batches get the same name exactly if their headers name the same type and device. */
  lemma SeriesKeyIsInjective(t: int, d: Option<Device>, u: int, e: Option<Device>)
    ensures SeriesKey(t, d) == SeriesKey(u, e) <==> t == u && d == e
  {
    if SeriesKey(t, d) == SeriesKey(u, e) {
      DecIntHasNoColon(t);
      DecIntHasNoColon(u);
      SplitIsUnique(DecInt(t), ":" + FormatDeviceId(d), DecInt(u), ":" + FormatDeviceId(e), ':');
      DecIntIsInjective(t, u);
      DropPrefix(":", FormatDeviceId(d), FormatDeviceId(e));
      FormatIsInjective(d, e);
    }
  }

  /** The name of the series a key's batches end up in. */
  function NameOf(key: BufferKey): string {
    SeriesKey(key.metricType, DeviceOf(key))
  }

  /** Two buffered series share a name exactly if type and rebuilt device are equal. */
  lemma NamesCoincide(k: BufferKey, l: BufferKey)
    ensures NameOf(k) == NameOf(l) <==> k.metricType == l.metricType && DeviceOf(k) == DeviceOf(l)
  {
    SeriesKeyIsInjective(k.metricType, DeviceOf(k), l.metricType, DeviceOf(l));
  }

  /** Identity survives the whole pipeline: two faithful metrics end up in the same dashboard
      series exactly if type and device are equal. */
  lemma IdentitySurvives(m: Metric, n: Metric)
    requires Faithful(m.metricType, m.device) && Faithful(n.metricType, n.device)
    ensures NameOf(MakeBufferKey(m)) == NameOf(MakeBufferKey(n)) <==> m.metricType == n.metricType && m.device == n.device
  {
    DeviceRoundTrip(m);
    DeviceRoundTrip(n);
    NamesCoincide(MakeBufferKey(m), MakeBufferKey(n));
  }

  /** Not all metrics are that lucky. Two metrics are buffered apart and merged on the
      dashboard exactly if their types are equal, what the key keeps of their devices
      differs, and neither device is seen through the type. */
  lemma MergedExactly(m: Metric, n: Metric)
    ensures
      MakeBufferKey(m) != MakeBufferKey(n) && NameOf(MakeBufferKey(m)) == NameOf(MakeBufferKey(n)) <==>
      m.metricType == n.metricType && Kept(m.device) != Kept(n.device) && Unseen(m) && Unseen(n)
  {
    NamesCoincide(MakeBufferKey(m), MakeBufferKey(n));
    BuffersCoincide(m, n);
    if m.metricType == n.metricType { RebuiltDevicesCoincide(m, n); }
  }

  /** Among clean keys the name determines the key. */
  lemma CleanNamesAreUnique(k: BufferKey, l: BufferKey)
    requires Clean(k) && Clean(l)
    ensures NameOf(k) == NameOf(l) <==> k == l
  {
    NamesCoincide(k, l);
  }

  /** A merge, with values: RAM metrics (300) that carry CPU devices. */
  lemma SomeSeriesMerge()
    ensures
      var m := Metric(300, Some(Cpu(0, 0)), NaN, 0);
      var n := Metric(300, Some(Cpu(1, 0)), NaN, 0);
      MakeBufferKey(m) != MakeBufferKey(n) && NameOf(MakeBufferKey(m)) == NameOf(MakeBufferKey(n))
  {
  }
}

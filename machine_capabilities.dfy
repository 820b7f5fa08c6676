/**
 * query-machine-capabilities: decodes AMD's Encrypted Memory Capabilities
 * CPUID leaf (Fn8000_001F, AMD64 Architecture Programmer's Manual Vol. 3,
 * Appendix E) into a record and writes that record as a fixed JSON text to
 * /run/qemu-server/host-hw-capabilities.json.
 *
 * The `cpuid` instruction, `stat`, `mkdir`, `fopen`, `fprintf` and `fclose`
 * are not executed here: their outcomes are parameters.
 */
module MachineCapabilities {
  import opened Wrappers
  import Decimal

  /** `uint8_t`. */
  type Byte = x: int | 0 <= x < 256

  /** The build target: the `cpuid` query exists only on x86. */
  datatype Arch = X86 | OtherArch

  /** `cpu_caps_t`. */
  datatype CpuCaps = CpuCaps(
    sevSupport: bool,
    sevEsSupport: bool,
    sevSnpSupport: bool,
    cbitpos: Byte,
    reducedPhysBits: Byte)

  /** Bit `i` of a 32-bit register. */
  predicate Bit(x: bv32, i: nat)
    requires i < 32
  {
    (x >> i) & 1 == 1
  }

  /** Bits `lo .. lo+5` of a register, read as a number. */
  function Field6(x: bv32, lo: nat): (v: nat)
    requires lo <= 26
    ensures v < 64
  {
    ((x >> lo) & 0x3f) as nat
  }

  /**
   * `query_cpu_capabilities`: EAX bits 1, 3 and 4 are the SEV, SEV-ES and
   * SEV-SNP flags; EBX bits 0-5 are the C-bit position and bits 6-11 the
   * reduction in physical address bits. Off x86 every field is zero/false.
   */
  function QueryCpuCapabilities(arch: Arch, eax: bv32, ebx: bv32): (caps: CpuCaps)
    ensures arch == X86 ==>
      && (caps.sevSupport <==> Bit(eax, 1))
      && (caps.sevEsSupport <==> Bit(eax, 3))
      && (caps.sevSnpSupport <==> Bit(eax, 4))
      && caps.cbitpos == Field6(ebx, 0)
      && caps.reducedPhysBits == Field6(ebx, 6)
    ensures arch == OtherArch ==> caps == CpuCaps(false, false, false, 0, 0)
    ensures caps.cbitpos < 64 && caps.reducedPhysBits < 64
  {
    match arch
    case X86 =>
      CpuCaps(
        eax & (1 << 1) != 0,
        eax & (1 << 3) != 0,
        eax & (1 << 4) != 0,
        (ebx & 0x3f) as int,
        ((ebx >> 6) & 0x3f) as int)
    case OtherArch =>
      CpuCaps(false, false, false, 0, 0)
  }

  /** Only EAX bits 1, 3 and 4 matter, and EAX does not affect the numeric fields. */
  lemma EaxOnlyFlagBitsMatter(arch: Arch, eax1: bv32, eax2: bv32, ebx: bv32)
    requires eax1 & 0x1a == eax2 & 0x1a
    ensures QueryCpuCapabilities(arch, eax1, ebx) == QueryCpuCapabilities(arch, eax2, ebx)
  {
  }

  /** Only EBX bits 0-11 matter, and EBX does not affect the flags. */
  lemma EbxOnlyLowTwelveBitsMatter(arch: Arch, eax: bv32, ebx1: bv32, ebx2: bv32)
    requires ebx1 & 0xfff == ebx2 & 0xfff
    ensures QueryCpuCapabilities(arch, eax, ebx1) == QueryCpuCapabilities(arch, eax, ebx2)
  {
  }

  /** The C-bit position depends on EBX bits 0-5 alone, the reduction on bits 6-11 alone. */
  lemma EbxFieldsAreSeparate(eax: bv32, ebx1: bv32, ebx2: bv32)
    ensures ebx1 & 0x3f == ebx2 & 0x3f ==>
      QueryCpuCapabilities(X86, eax, ebx1).cbitpos == QueryCpuCapabilities(X86, eax, ebx2).cbitpos
    ensures ebx1 & 0xfc0 == ebx2 & 0xfc0 ==>
      QueryCpuCapabilities(X86, eax, ebx1).reducedPhysBits == QueryCpuCapabilities(X86, eax, ebx2).reducedPhysBits
  {
  }

  function BoolText(b: bool): string
  {
    if b then "true" else "false"
  }

  // The pieces of the output template, in order.
  const Opening: string := "{ \"amd-sev\": { \"cbitpos\": "
  const AfterCbitpos: string := ", \"reduced-phys-bits\": "
  const AfterReduced: string := ", \"sev-support\": "
  const AfterSev: string := ", \"sev-support-es\": "
  const AfterSevEs: string := ", \"sev-support-snp\": "
  const Closing: string := " } }\n"

  /**
   * The text `main` writes: one `amd-sev` object with the keys `cbitpos`,
   * `reduced-phys-bits`, `sev-support`, `sev-support-es`, `sev-support-snp`
   * in that order, numbers in unsigned decimal, booleans as `true`/`false`,
   * ended by a newline. Its partner is `ParseCapsJson`.
   */
  function CapsJson(caps: CpuCaps): (text: string)
    ensures |text| > 0 && text[|text| - 1] == '\n'
  {
    Opening + (Decimal.Show(caps.cbitpos)
    + (AfterCbitpos + (Decimal.Show(caps.reducedPhysBits)
    + (AfterReduced + SevJson(caps)))))
  }

  /** The part of the text from the `sev-support` value on. */
  function SevJson(caps: CpuCaps): string
  {
    BoolText(caps.sevSupport)
    + (AfterSev + (BoolText(caps.sevEsSupport)
    + (AfterSevEs + (BoolText(caps.sevSnpSupport)
    + Closing))))
  }

  /** `s` with the literal `lit` removed from its front, if it starts with it. */
  function Expect(lit: string, s: string): Option<string>
  {
    if |lit| <= |s| && s[..|lit|] == lit then Some(s[|lit|..]) else None
  }

  /** A decimal `uint8_t` at the front of `s`, and what follows it. */
  function ReadByte(s: string): Option<(Byte, string)>
  {
    var k := Decimal.DigitRun(s);
    if k == 0 then None
    else
      var v := Decimal.Value(s[..k]);
      if v < 256 then Some((v, s[k..])) else None
  }

  /** A JSON boolean literal at the front of `s`, and what follows it. */
  function ReadBool(s: string): Option<(bool, string)>
  {
    match Expect("true", s)
    case Some(rest) => Some((true, rest))
    case None =>
      match Expect("false", s)
      case Some(rest) => Some((false, rest))
      case None => None
  }

  /** Reads back a text of the shape `CapsJson` writes; anything else is `None`. */
  function ParseCapsJson(text: string): Option<CpuCaps>
  {
    match Expect(Opening, text)
    case None => None
    case Some(s1) =>
    match ReadByte(s1)
    case None => None
    case Some((cbitpos, s2)) =>
    match Expect(AfterCbitpos, s2)
    case None => None
    case Some(s3) =>
    match ReadByte(s3)
    case None => None
    case Some((reduced, s4)) =>
    match Expect(AfterReduced, s4)
    case None => None
    case Some(s5) => ParseSevJson(s5, cbitpos, reduced)
  }

  /** Reads back the part `SevJson` writes, completing the record with the two numbers read before it. */
  function ParseSevJson(s5: string, cbitpos: Byte, reduced: Byte): Option<CpuCaps>
  {
    match ReadBool(s5)
    case None => None
    case Some((sev, s6)) =>
    match Expect(AfterSev, s6)
    case None => None
    case Some(s7) =>
    match ReadBool(s7)
    case None => None
    case Some((sevEs, s8)) =>
    match Expect(AfterSevEs, s8)
    case None => None
    case Some(s9) =>
    match ReadBool(s9)
    case None => None
    case Some((sevSnp, s10)) =>
    if s10 == Closing then Some(CpuCaps(sev, sevEs, sevSnp, cbitpos, reduced)) else None
  }

  lemma ExpectPrefix(lit: string, rest: string)
    ensures Expect(lit, lit + rest) == Some(rest)
  {
    assert (lit + rest)[..|lit|] == lit;
    assert (lit + rest)[|lit|..] == rest;
  }

  lemma ReadByteShow(b: Byte, rest: string)
    requires rest == [] || !Decimal.IsDigit(rest[0])
    ensures ReadByte(Decimal.Show(b) + rest) == Some((b, rest))
  {
    var d := Decimal.Show(b);
    Decimal.DigitRunOf(d, rest);
    assert (d + rest)[..|d|] == d;
    assert (d + rest)[|d|..] == rest;
  }

  lemma ReadBoolText(b: bool, rest: string)
    requires rest == [] || rest[0] in ", "
    ensures ReadBool(BoolText(b) + rest) == Some((b, rest))
  {
    ExpectPrefix(BoolText(b), rest);
    if !b {
      assert Expect("true", "false" + rest).None? by {
        assert ("false" + rest)[0] == 'f';
      }
    }
  }

  /** The written text determines the record: reading it back gives the record written. */
  lemma {:induction false} CapsJsonRoundTrip(caps: CpuCaps)
    ensures ParseCapsJson(CapsJson(caps)) == Some(caps)
  {
    var t2 := SevJson(caps);
    var r2 := AfterReduced + t2;
    var t1 := Decimal.Show(caps.reducedPhysBits) + r2;
    var r1 := AfterCbitpos + t1;
    ExpectPrefix(Opening, Decimal.Show(caps.cbitpos) + r1);
    ReadByteShow(caps.cbitpos, r1);
    ExpectPrefix(AfterCbitpos, t1);
    ReadByteShow(caps.reducedPhysBits, r2);
    ExpectPrefix(AfterReduced, t2);
    SevJsonRoundTrip(caps);
  }

  /** The flags part reads back the three flags written. */
  lemma {:induction false} SevJsonRoundTrip(caps: CpuCaps)
    ensures ParseSevJson(SevJson(caps), caps.cbitpos, caps.reducedPhysBits) == Some(caps)
  {
    var t6 := BoolText(caps.sevSnpSupport) + Closing;
    var t5 := AfterSevEs + t6;
    var t4 := BoolText(caps.sevEsSupport) + t5;
    var t3 := AfterSev + t4;
    ReadBoolText(caps.sevSupport, t3);
    ExpectPrefix(AfterSev, t4);
    ReadBoolText(caps.sevEsSupport, t5);
    ExpectPrefix(AfterSevEs, t6);
    ReadBoolText(caps.sevSnpSupport, Closing);
  }

  /** Different records are never written as the same text. */
  lemma CapsJsonInjective(a: CpuCaps, b: CpuCaps)
    requires CapsJson(a) == CapsJson(b)
    ensures a == b
  {
    CapsJsonRoundTrip(a);
    CapsJsonRoundTrip(b);
  }

  /** What `stat` reports for the output directory. */
  datatype DirStat =
    | IsDirectory       // stat succeeded, S_ISDIR
    | NotDirectory      // stat succeeded on something else
    | Missing           // stat failed with ENOENT
    | StatError         // stat failed with any other errno

  /**
   * `prepare_output_directory`: true when the directory exists, or is absent
   * and `mkdir` succeeds. `mkdirOk` is the outcome `mkdir` would have; it is
   * consulted only when the directory is absent.
   */
  function PrepareOutputDirectory(stat: DirStat, mkdirOk: bool): (ok: bool)
    ensures ok <==> stat == IsDirectory || (stat == Missing && mkdirOk)
  {
    match stat
    case IsDirectory => true
    case NotDirectory => false
    case Missing => mkdirOk
    case StatError => false
  }

  /** The outcome of `mkdir` decides nothing unless the directory was absent. */
  lemma MkdirOnlyWhenMissing(stat: DirStat, mkdirOk: bool)
    requires stat != Missing
    ensures PrepareOutputDirectory(stat, mkdirOk) == PrepareOutputDirectory(stat, !mkdirOk)
  {
  }

  /** Outcomes of the file-system calls `main` makes; each is read only if reached. */
  datatype FileSystem = FileSystem(
    stat: DirStat,
    mkdirOk: bool,
    fopenOk: bool,
    writeOk: bool,
    closeOk: bool)

  /** Messages `main` and its helpers print. */
  datatype Diagnostic =
    | NotADirectory | MkdirFailed | StatFailed
    | CpuidUnsupported | OpenFailed | WriteFailed | CloseFailed

  /** What one run of `main` does: its exit status, the text handed to `fprintf`, its messages. */
  datatype Run = Run(exitCode: int, written: Option<string>, diagnostics: seq<Diagnostic>)

  /** The message `prepare_output_directory` prints: one exactly when it fails, naming the step that failed. */
  function PrepareDiagnostics(stat: DirStat, mkdirOk: bool): (d: seq<Diagnostic>)
    ensures |d| <= 1
    ensures d == [] <==> PrepareOutputDirectory(stat, mkdirOk)
    ensures d == [MkdirFailed] <==> stat == Missing && !mkdirOk
  {
    match stat
    case IsDirectory => []
    case NotDirectory => [NotADirectory]
    case Missing => if mkdirOk then [] else [MkdirFailed]
    case StatError => [StatFailed]
  }

  /**
   * `main`: exits with 1 only when the directory cannot be prepared or the
   * file cannot be opened; a failed write or close is reported and the exit
   * status is still 0.
   */
  function RunProgram(fs: FileSystem, arch: Arch, eax: bv32, ebx: bv32): (run: Run)
    ensures run.exitCode == 0 || run.exitCode == 1
    ensures run.exitCode == 1 <==> !PrepareOutputDirectory(fs.stat, fs.mkdirOk) || !fs.fopenOk
    ensures run.written.Some? <==> run.exitCode == 0
    ensures run.written.Some? ==> run.written == Some(CapsJson(QueryCpuCapabilities(arch, eax, ebx)))
    ensures run.exitCode == 0 ==>
      (WriteFailed in run.diagnostics <==> !fs.writeOk) && (CloseFailed in run.diagnostics <==> !fs.closeOk)
  {
    var prep := PrepareDiagnostics(fs.stat, fs.mkdirOk);
    if !PrepareOutputDirectory(fs.stat, fs.mkdirOk) then
      Run(1, None, prep)
    else
      var caps := QueryCpuCapabilities(arch, eax, ebx);
      var cpuid := if arch == OtherArch then [CpuidUnsupported] else [];
      if !fs.fopenOk then
        Run(1, None, prep + cpuid + [OpenFailed])
      else
        var write := if fs.writeOk then [] else [WriteFailed];
        var close := if fs.closeOk then [] else [CloseFailed];
        Run(0, Some(CapsJson(caps)), prep + cpuid + write + close)
  }
}

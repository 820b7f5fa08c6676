/**
 * The VMID that qmeventd reads from a QEMU process's command line: the
 * file name of the argument after the first `-pidfile`, which must be
 * `<number>.pid`. The command line (`/proc/<pid>/cmdline`, NUL-separated)
 * is given as the sequence of its arguments.
 */
module VmidParser {
  import opened Wrappers
  import Decimal

  /** `unsigned long` on the 64-bit Linux targets qmeventd is built for. */
  const ULongModulus: nat := 0x1_0000_0000_0000_0000
  const ULongMax: nat := ULongModulus - 1

  const PidfileOption: string := "-pidfile"
  const PidSuffix: string := ".pid"

  /** `isspace` in the C locale. */
  predicate IsSpace(ch: char)
  {
    ch == ' ' || ch == '\t' || ch == '\n' || ch == '\r' || ch == '\U{0b}' || ch == '\U{0c}'
  }

  /** The index of the first character of `s` at or after `i` that is not a space. */
  function SkipSpaces(s: string, i: nat): (j: nat)
    requires i <= |s|
    ensures i <= j <= |s|
    ensures forall k :: i <= k < j ==> IsSpace(s[k])
    ensures j < |s| ==> !IsSpace(s[j])
    decreases |s| - i
  {
    if i < |s| && IsSpace(s[i]) then SkipSpaces(s, i + 1) else i
  }

  /** What `strtoul(s, &end, 10)` yields: the value, where `end` points, and whether `errno` is ERANGE. */
  datatype Conversion = Conversion(value: nat, end: nat, rangeError: bool)

  /** Where the digits of a number may start: after the leading spaces and an optional sign. */
  function NumberStart(s: string): (j: nat)
    ensures j <= |s|
  {
    var i := SkipSpaces(s, 0);
    if i < |s| && (s[i] == '+' || s[i] == '-') then i + 1 else i
  }

  /** Whether the sign in front of the digits is a minus. */
  predicate Negative(s: string)
  {
    var i := SkipSpaces(s, 0);
    i < |s| && s[i] == '-'
  }

  /**
   * `strtoul` with base 10 in the C locale: leading spaces, an optional sign,
   * then the longest run of digits. No digits: value 0 and `end` at the
   * start of the text. More than `ULONG_MAX`: `ULONG_MAX` and ERANGE. A
   * minus sign negates the value modulo 2^64.
   */
  function StrToUL(s: string): (c: Conversion)
    ensures c.value <= ULongMax
    ensures c.end <= |s|
    ensures Decimal.DigitRun(s[NumberStart(s)..]) == 0 <==> c.end == 0
    ensures c.end == 0 ==> c == Conversion(0, 0, false)
    ensures c.end != 0 ==>
      && NumberStart(s) < c.end
      && Decimal.AllDigits(s[NumberStart(s)..c.end])
      && (c.end < |s| ==> !Decimal.IsDigit(s[c.end]))
    ensures c.end != 0 ==>
      var v := Decimal.Value(s[NumberStart(s)..c.end]);
      && (c.rangeError <==> v > ULongMax)
      && (c.rangeError ==> c.value == ULongMax)
      && (!c.rangeError ==> c.value == if Negative(s) then (ULongModulus - v) % ULongModulus else v)
  {
    var j := NumberStart(s);
    var k := j + Decimal.DigitRun(s[j..]);
    if k == j then Conversion(0, 0, false)
    else
      assert s[j..k] == s[j..][..k - j];
      var v := Decimal.Value(s[j..k]);
      if v > ULongMax then Conversion(ULongMax, k, true)
      else Conversion(if Negative(s) then (ULongModulus - v) % ULongModulus else v, k, false)
  }

  /** The index of the last `/` in `s` (`strrchr`). */
  function LastSlash(s: string): (r: Option<nat>)
    ensures r.Some? ==> r.value < |s| && s[r.value] == '/' && '/' !in s[r.value + 1..]
    ensures r.None? <==> '/' !in s
    decreases |s|
  {
    if s == [] then None
    else if s[|s| - 1] == '/' then Some(|s| - 1)
    else
      var r := LastSlash(s[..|s| - 1]);
      assert s == s[..|s| - 1] + [s[|s| - 1]];
      assert r.Some? ==> s[r.value + 1..] == s[..|s| - 1][r.value + 1..] + [s[|s| - 1]];
      r
  }

  /** The text after the last `/` of `arg`, if it has one. */
  function FileName(arg: string): (r: Option<string>)
    ensures r.None? <==> '/' !in arg
    ensures r.Some? ==> '/' !in r.value
  {
    match LastSlash(arg)
    case None => None
    case Some(k) => Some(arg[k + 1..])
  }

  /**
   * Whether the file name of a pidfile argument is accepted: non-empty, not
   * starting with `-`, converted without overflow and followed by exactly `.pid`.
   */
  predicate Accepted(name: string)
  {
    && name != [] && name[0] != '-'
    && !StrToUL(name).rangeError
    && name[StrToUL(name).end..] == PidSuffix
  }

  /**
   * The VMID in the argument that follows `-pidfile`, or 0 when its file
   * name is not accepted.
   */
  function PidfileVmid(arg: string): (vmid: nat)
    ensures vmid <= ULongMax
    ensures vmid != 0 ==> FileName(arg).Some? && Accepted(FileName(arg).value)
    ensures vmid != 0 ==> vmid == StrToUL(FileName(arg).value).value
  {
    match FileName(arg)
    case None => 0
    case Some(name) =>
      if name == [] || name[0] == '-' then 0
      else
        var c := StrToUL(name);
        if name[c.end..] != PidSuffix then 0
        else if c.rangeError then 0
        else c.value
  }

  /** The position of the first `-pidfile` argument. */
  function FirstPidfile(args: seq<string>): (r: Option<nat>)
    ensures r.Some? ==> r.value < |args| && args[r.value] == PidfileOption
    ensures r.Some? ==> forall j :: 0 <= j < r.value ==> args[j] != PidfileOption
    ensures r.None? <==> PidfileOption !in args
  {
    if args == [] then None
    else if args[0] == PidfileOption then Some(0)
    else
      match FirstPidfile(args[1..])
      case None => None
      case Some(i) => Some(i + 1)
  }

  /** `get_vmid_from_pid` as a function of the argument list: 0 when no VMID is found. */
  function VmidOfArgs(args: seq<string>): (vmid: nat)
    ensures vmid <= ULongMax
    ensures vmid != 0 ==> PidfileOption in args
  {
    match FirstPidfile(args)
    case None => 0
    case Some(i) => if i + 1 < |args| then PidfileVmid(args[i + 1]) else 0
  }

  /**
   * The part of `get_vmid_from_pid` that reads the argument after
   * `-pidfile`: the file name after the last `/`, rejected when empty or
   * starting with `-`, converted by `strtoul`, and kept only when `.pid`
   * follows the digits and there was no ERANGE.
   */
  method ParsePidfile(pidfile: string) returns (vmid: nat)
    ensures vmid == PidfileVmid(pidfile)
  {
    vmid := 0;
    var slash := LastSlash(pidfile);
    if slash.None? {
      return;
    }
    var start := slash.value + 1;
    assert FileName(pidfile) == Some(pidfile[start..]);
    if start == |pidfile| || pidfile[start] == '-' {
      return;
    }
    var name := pidfile[start..];
    var c := StrToUL(name);
    if name[c.end..] != PidSuffix {
      return;
    }
    vmid := c.value;
    if c.rangeError {
      vmid := 0;
    }
  }

  /**
   * The argument walk of `get_vmid_from_pid`: read arguments until one is
   * `-pidfile`, then parse the next one and stop, whatever the outcome.
   */
  method GetVmidFromArgs(args: seq<string>) returns (vmid: nat)
    ensures vmid == VmidOfArgs(args)
    ensures vmid <= ULongMax
  {
    vmid := 0;
    var i := 0;
    while i < |args|
      invariant 0 <= i <= |args|
      invariant forall j :: 0 <= j < i ==> args[j] != PidfileOption
      invariant vmid == 0
      decreases |args| - i
    {
      var arg := args[i];
      i := i + 1;
      if arg != PidfileOption {
        continue;
      }
      FirstPidfileAt(args, i - 1);
      if i >= |args| {
        return;
      }
      vmid := ParsePidfile(args[i]);
      assert vmid == VmidOfArgs(args);
      return;
    }
    assert FirstPidfile(args).None?;
  }

  /** The first `-pidfile` is the one found at `i` when none comes before it. */
  lemma FirstPidfileAt(args: seq<string>, i: nat)
    requires i < |args| && args[i] == PidfileOption
    requires forall j :: 0 <= j < i ==> args[j] != PidfileOption
    ensures FirstPidfile(args) == Some(i)
  {
    var r := FirstPidfile(args);
    assert PidfileOption in args;
  }

  /** Only the first `-pidfile` counts: later arguments never change the result. */
  lemma {:induction false} OnlyFirstPidfileCounts(before: seq<string>, pidfile: string, after: seq<string>)
    requires PidfileOption !in before
    ensures VmidOfArgs(before + [PidfileOption, pidfile] + after) == PidfileVmid(pidfile)
  {
    var args := before + [PidfileOption, pidfile] + after;
    assert args[|before|] == PidfileOption && args[|before| + 1] == pidfile;
    FirstPidfileAt(args, |before|);
  }

  /** A trailing `-pidfile` with nothing after it yields no VMID. */
  lemma TrailingPidfileOption(before: seq<string>)
    requires PidfileOption !in before
    ensures VmidOfArgs(before + [PidfileOption]) == 0
  {
    FirstPidfileAt(before + [PidfileOption], |before|);
  }

  /** `strtoul` reads a canonical number followed by a non-digit exactly. */
  lemma StrToULShow(n: nat, rest: string)
    requires n <= ULongMax
    requires rest == [] || !Decimal.IsDigit(rest[0])
    ensures StrToUL(Decimal.Show(n) + rest) == Conversion(n, |Decimal.Show(n)|, false)
  {
    var d := Decimal.Show(n);
    var s := d + rest;
    assert !IsSpace(s[0]) && s[0] != '+' && s[0] != '-';
    assert SkipSpaces(s, 0) == 0;
    assert s[0..] == s;
    Decimal.DigitRunOf(d, rest);
    assert s[0..|d|] == d;
  }

  lemma LastSlashOf(head: string, tail: string)
    requires |head| > 0 && head[|head| - 1] == '/'
    requires '/' !in tail
    ensures LastSlash(head + tail) == Some(|head| - 1)
  {
    var r := LastSlash(head + tail);
    assert (head + tail)[|head| - 1] == '/';
    assert r.Some?;
  }

  /** The file name of `<dir>/<name>` is `<name>` when `<name>` has no `/`. */
  lemma FileNameOf(dir: string, name: string)
    requires '/' !in name
    ensures FileName(dir + "/" + name) == Some(name)
  {
    var head := dir + "/";
    assert dir + "/" + name == head + name;
    LastSlashOf(head, name);
    assert (head + name)[|head|..] == name;
  }

  /** `<digits>.pid` contains no `/`. */
  lemma NoSlashInNumberedName(d: string)
    requires Decimal.AllDigits(d)
    ensures '/' !in d + PidSuffix
  {
    var name := d + PidSuffix;
    forall k | 0 <= k < |name| ensures name[k] != '/' {
      if k < |d| { assert Decimal.IsDigit(d[k]); } else { assert name[k] == PidSuffix[k - |d|]; }
    }
  }

  /** `<vmid>.pid` is accepted and converts to the VMID. */
  lemma {:induction false} NumberedNameAccepted(n: nat)
    requires 1 <= n <= ULongMax
    ensures Accepted(Decimal.Show(n) + PidSuffix)
    ensures StrToUL(Decimal.Show(n) + PidSuffix).value == n
  {
    var d := Decimal.Show(n);
    var name := d + PidSuffix;
    StrToULShow(n, PidSuffix);
    assert name[|d|..] == PidSuffix;
    assert name[0] == d[0] && Decimal.IsDigit(d[0]);
  }

  /** The usual pidfile path `<dir>/<vmid>.pid` yields that VMID. */
  lemma {:induction false} PidfileVmidOfPath(dir: string, n: nat)
    requires 1 <= n <= ULongMax
    ensures PidfileVmid(dir + "/" + Decimal.Show(n) + PidSuffix) == n
  {
    var name := Decimal.Show(n) + PidSuffix;
    assert dir + "/" + Decimal.Show(n) + PidSuffix == dir + "/" + name;
    NoSlashInNumberedName(Decimal.Show(n));
    FileNameOf(dir, name);
    NumberedNameAccepted(n);
  }

  /** `strtoul` also skips leading spaces and a `+`: ` +<vmid>.pid` converts to the VMID. */
  lemma {:induction false} SpacePlusNameAccepted(n: nat)
    requires 1 <= n <= ULongMax
    ensures Accepted(" +" + Decimal.Show(n) + PidSuffix)
    ensures StrToUL(" +" + Decimal.Show(n) + PidSuffix).value == n
  {
    var d := Decimal.Show(n);
    var name := " +" + d + PidSuffix;
    assert SkipSpaces(name, 1) == 1;
    assert SkipSpaces(name, 0) == 1;
    assert name[2..] == d + PidSuffix;
    Decimal.DigitRunOf(d, PidSuffix);
    assert name[2..2 + |d|] == d;
    assert name[2 + |d|..] == PidSuffix;
  }

  /** So `<dir>/ +<vmid>.pid` is accepted as well. */
  lemma {:induction false} PidfileVmidAcceptsSpaceAndPlus(dir: string, n: nat)
    requires 1 <= n <= ULongMax
    ensures PidfileVmid(dir + "/ +" + Decimal.Show(n) + PidSuffix) == n
  {
    var d := Decimal.Show(n);
    var name := " +" + d + PidSuffix;
    assert dir + "/ +" + d + PidSuffix == dir + "/" + name;
    NoSlashInNumberedName(d);
    assert name == " +" + (d + PidSuffix);
    FileNameOf(dir, name);
    SpacePlusNameAccepted(n);
  }

  /**
   * The `-` check looks only at the first character after the slash: a
   * space before the minus sign lets a negated number through, wrapped
   * modulo 2^64 by `strtoul`.
   */
  lemma SpaceThenMinusWraps()
    ensures PidfileVmid("/ -5.pid") == ULongModulus - 5
  {
    var name := " -5.pid";
    assert "/ -5.pid" == "" + "/" + name;
    FileNameOf("", name);
    SpaceMinusConverts();
    assert name[3..] == PidSuffix;
    PidfileVmidOf("/ -5.pid", name);
  }

  /** A file name that does not start with `-` and converts in full up to `.pid` gives its converted value. */
  lemma PidfileVmidOf(arg: string, name: string)
    requires FileName(arg) == Some(name) && name != [] && name[0] != '-'
    requires StrToUL(name).end <= |name| && name[StrToUL(name).end..] == PidSuffix && !StrToUL(name).rangeError
    ensures PidfileVmid(arg) == StrToUL(name).value
  {
  }

  lemma SpaceMinusConverts()
    ensures StrToUL(" -5.pid") == Conversion(ULongModulus - 5, 3, false)
  {
    var name := " -5.pid";
    assert SkipSpaces(name, 1) == 1;
    assert SkipSpaces(name, 0) == 1;
    assert name[2..] == "5" + PidSuffix;
    Decimal.DigitRunOf("5", PidSuffix);
    assert name[2..3] == "5";
    assert Decimal.Value("5") == 5 by {
      assert "5"[..0] == [];
    }
  }

  /** A process started without `-pidfile` has no VMID. */
  lemma NoPidfileNoVmid(args: seq<string>)
    requires PidfileOption !in args
    ensures VmidOfArgs(args) == 0
  {
  }
}

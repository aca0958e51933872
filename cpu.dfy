/** The CPU converter (src/converters/CPU.js): the clock-memory built-in
    symbols, their relocation when the configuration moves the clock-memory
    byte, the output-directory option and the selection of conversion rules. */
module CpuConverter {
  import opened Js
  import opened Seqs

  const CPU_NAME: string := "CPU"

  /** `CPU_BUILDIN`: the clock-memory byte followed by its eight pulse bits. */
  const CPU_BUILDIN: seq<(string, string)> := [
    ("Clock_Memory", "MB0"),
    ("Pulse_10Hz", "M0.0"),
    ("Pulse_5Hz", "M0.1"),
    ("Pulse_2.5Hz", "M0.2"),
    ("Pulse_2Hz", "M0.3"),
    ("Pulse_1.25Hz", "M0.4"),
    ("Pulse_1Hz", "M0.5"),
    ("Pulse_0.62Hz", "M0.6"),
    ("Pulse_0.5Hz", "M0.7")
  ]

  /** A `[name, address]` pair as the symbol definition the symbol table receives. */
  function Definition(d: (string, string)): JsVal
  {
    Arr([Str(d.0), Str(d.1)])
  }

  lemma BuiltinLayout()
    ensures |CPU_BUILDIN| == 9
    ensures CPU_BUILDIN[0] == ("Clock_Memory", "MB0")
    ensures forall k :: 0 <= k < 8 ==> CPU_BUILDIN[k + 1].1 == "M0." + [DigitChar(k)]
  {
  }

  /** `is_type_CPU` */
  predicate IsTypeCpu(t: string)
  {
    Upper(t) == CPU_NAME
  }

  /** The recognizer ignores case: it accepts exactly the spellings of "cpu". */
  lemma IsTypeCpuIgnoresCase(t: string)
    ensures IsTypeCpu(t) <==> Lower(t) == "cpu"
  {
    assert Upper("cpu") == "CPU";
    UpperMatchesIffLowerMatches(t, "cpu");
  }

  /** `/^mb\d+$/i` */
  predicate IsClockMemoryAddr(a: string)
  {
    |a| >= 3 && LowerChar(a[0]) == 'm' && LowerChar(a[1]) == 'b'
    && forall i :: 2 <= i < |a| ==> IsDigit(a[i])
  }

  /** `s.replace(/B/i, '')`: drops the first `b` or `B`. */
  function RemoveFirstB(s: string): string
  {
    if |s| == 0 then s
    else if s[0] == 'b' || s[0] == 'B' then s[1..]
    else [s[0]] + RemoveFirstB(s[1..])
  }

  /** `s.replace(pat, rep)` with a string pattern: replaces the first occurrence. */
  function ReplaceFirst(s: string, pat: string, rep: string): string
    requires |pat| > 0
  {
    if |s| < |pat| then s
    else if s[..|pat|] == pat then rep + s[|pat|..]
    else [s[0]] + ReplaceFirst(s[1..], pat, rep)
  }

  /** The address of a built-in pulse bit once the clock-memory byte is `cm`. */
  function RelocatedAddr(cm: string, addr: string): string
  {
    ReplaceFirst(addr, "M0", Upper(RemoveFirstB(cm)))
  }

  /** `parse_symbols_CPU`, given the address the symbol table holds for
      `Clock_Memory`: the definitions it adds to the table. */
  function ParseSymbolsCpu(cm: JsVal): (r: Result<seq<(string, string)>>)
    ensures r.Err? <==> !(cm.Str? && IsClockMemoryAddr(cm.s))
    ensures r.Err? ==> r.error == InvalidClockMemory
    ensures r == Ok([]) <==> cm == Str("MB0")
    ensures r.Ok? && cm != Str("MB0") ==>
      |r.value| == 8 && forall k :: 0 <= k < 8 ==> r.value[k].0 == CPU_BUILDIN[k + 1].0
  {
    if !cm.Str? || !IsClockMemoryAddr(cm.s) then Err(InvalidClockMemory)
    else if cm.s == "MB0" then Ok([])
    else Ok(seq(8, k requires 0 <= k < 8 =>
      (CPU_BUILDIN[k + 1].0, RelocatedAddr(cm.s, CPU_BUILDIN[k + 1].1))))
  }

  lemma UpperDigits(s: string)
    requires forall i :: 0 <= i < |s| ==> IsDigit(s[i])
    ensures Upper(s) == s
  {
  }

  /** Relocating to `MB<n>` puts pulse bit `k` at `M<n>.<k>`, the digits of
      `<n>` copied as written. */
  lemma RelocatedAddrShape(cm: string, k: nat)
    requires IsClockMemoryAddr(cm) && k < 8
    ensures RelocatedAddr(cm, "M0." + [DigitChar(k)]) == "M" + cm[2..] + "." + [DigitChar(k)]
  {
    assert cm[0] != 'b' && cm[0] != 'B' by { assert LowerChar(cm[0]) == 'm'; }
    assert cm[1] == 'b' || cm[1] == 'B' by { assert LowerChar(cm[1]) == 'b'; }
    assert RemoveFirstB(cm) == [cm[0]] + cm[2..] by {
      assert RemoveFirstB(cm[1..]) == cm[2..];
    }
    var digits := cm[2..];
    UpperDigits(digits);
    assert Upper([cm[0]] + digits) == "M" + digits by {
      assert UpperChar(cm[0]) == 'M';
      assert forall i :: 0 <= i < |digits| ==> UpperChar(digits[i]) == digits[i];
    }
    var addr := "M0." + [DigitChar(k)];
    assert addr[..2] == "M0";
    assert addr[2..] == "." + [DigitChar(k)];
  }

  /** Relocation re-adds the eight pulse-bit names, in order, at the bits of
      the new byte. */
  lemma RelocationRederivesPulseBits(cm: string)
    requires IsClockMemoryAddr(cm) && cm != "MB0"
    ensures ParseSymbolsCpu(Str(cm)) ==
      Ok(seq(8, k requires 0 <= k < 8 => (CPU_BUILDIN[k + 1].0, "M" + cm[2..] + "." + [DigitChar(k)])))
  {
    BuiltinLayout();
    var r := ParseSymbolsCpu(Str(cm)).value;
    var e := seq(8, k requires 0 <= k < 8 => (CPU_BUILDIN[k + 1].0, "M" + cm[2..] + "." + [DigitChar(k)]));
    forall k | 0 <= k < 8
      ensures r[k] == e[k]
    {
      RelocatedAddrShape(cm, k);
    }
    assert r == e;
  }

  /** The pulse-bit definitions once the clock memory is moved to `MB10`. */
  const PULSE_AT_MB10: seq<(string, string)> := [
    ("Pulse_10Hz", "M10.0"), ("Pulse_5Hz", "M10.1"), ("Pulse_2.5Hz", "M10.2"), ("Pulse_2Hz", "M10.3"),
    ("Pulse_1.25Hz", "M10.4"), ("Pulse_1Hz", "M10.5"), ("Pulse_0.62Hz", "M10.6"), ("Pulse_0.5Hz", "M10.7")]

  lemma PulseAtMB10Entry(k: nat)
    requires k < 8
    ensures (CPU_BUILDIN[k + 1].0, "M10." + [DigitChar(k)]) == PULSE_AT_MB10[k]
  {
    var a := PULSE_AT_MB10[k].1;
    assert |a| == 5 && a[..4] == "M10.";
    assert a[4] == DigitChar(k) by {
      if k == 0 {} else if k == 1 {} else if k == 2 {} else if k == 3 {}
      else if k == 4 {} else if k == 5 {} else if k == 6 {} else {}
    }
    assert a == a[..4] + [a[4]];
  }

  /** Moving the clock memory to `MB10` gives `M10.0` ... `M10.7`. */
  lemma RelocationToMB10()
    ensures ParseSymbolsCpu(Str("MB10")) == Ok(PULSE_AT_MB10)
  {
    assert IsClockMemoryAddr("MB10");
    RelocationRederivesPulseBits("MB10");
    var e := seq(8, k requires 0 <= k < 8 => (CPU_BUILDIN[k + 1].0, "M" + "MB10"[2..] + "." + [DigitChar(k)]));
    assert "M" + "MB10"[2..] == "M10";
    forall k | 0 <= k < 8
      ensures e[k] == PULSE_AT_MB10[k]
    {
      assert e[k].1 == "M10." + [DigitChar(k)];
      PulseAtMB10Entry(k);
    }
    assert e == PULSE_AT_MB10;
  }

  /** The comparison with `MB0` is case-sensitive: `mb0` re-adds the pulse bits
      at their built-in addresses. */
  lemma LowerCaseMb0Rederives()
    ensures ParseSymbolsCpu(Str("mb0")) == Ok(CPU_BUILDIN[1..])
  {
    assert IsClockMemoryAddr("mb0");
    RelocationRederivesPulseBits("mb0");
    BuiltinLayout();
    var e := seq(8, k requires 0 <= k < 8 => (CPU_BUILDIN[k + 1].0, "M" + "mb0"[2..] + "." + [DigitChar(k)]));
    assert "mb0"[2..] == "0";
    forall k | 0 <= k < 8 ensures e[k] == CPU_BUILDIN[1..][k] {
      assert e[k].1 == "M0." + [DigitChar(k)];
    }
    assert e == CPU_BUILDIN[1..];
  }

  /** `build_CPU`: the output directory after the build step. */
  function BuildCpu(outputDir: JsVal, options: JsVal): (r: JsVal)
    ensures Truthy(Get(options, "output_dir")) ==> r == Get(options, "output_dir")
    ensures !Truthy(Get(options, "output_dir")) ==> r == outputDir
  {
    var od := Get(options, "output_dir");
    if Truthy(od) then od else outputDir
  }

  /** Building twice with the same options changes nothing more. */
  lemma BuildCpuIdempotent(outputDir: JsVal, options: JsVal)
    ensures BuildCpu(BuildCpu(outputDir, options), options) == BuildCpu(outputDir, options)
  {
  }

  /** What `gen_CPU` reads of one CPU area. */
  datatype CpuGenArea = CpuGenArea(
    name: string,
    outputDir: JsVal,
    includes: string,
    options: JsVal,
    symbolList: seq<string>)   // `get_S7_symbol` of every table entry

  /** `output_file ?? dflt`, printed. */
  function OutputFile(options: JsVal, dflt: string): string
  {
    var f := Get(options, "output_file");
    if Nullish(f) then dflt else ToString(f)
  }

  function CpuRule(a: CpuGenArea): Rule
  {
    Rule(ToString(a.outputDir) + "/" + OutputFile(a.options, CPU_NAME) + ".scl",
         Obj([("name", Str(a.name)), ("includes", Str(a.includes))]))
  }

  function SymbolsRule(a: CpuGenArea): Rule
  {
    Rule(ToString(a.outputDir) + "/" + OutputFile(a.options, "symbols") + ".asc",
         Obj([("symbol_list", Arr(Map((l: string) => Str(l), a.symbolList)))]))
  }

  predicate HasIncludes(a: CpuGenArea) { |a.includes| > 0 }

  predicate HasSymbols(a: CpuGenArea) { |a.symbolList| > 0 }

  /** `gen_CPU`: one CPU rule per area with includes, one symbols rule per area
      whose symbol table is not empty, both in area order. */
  method GenCpu(list: seq<CpuGenArea>) returns (cpuRules: seq<Rule>, symbolRules: seq<Rule>)
    ensures cpuRules == Map(CpuRule, Filter(HasIncludes, list))
    ensures symbolRules == Map(SymbolsRule, Filter(HasSymbols, list))
  {
    cpuRules, symbolRules := [], [];
    for i := 0 to |list|
      invariant cpuRules == Map(CpuRule, Filter(HasIncludes, list[..i]))
      invariant symbolRules == Map(SymbolsRule, Filter(HasSymbols, list[..i]))
    {
      var a := list[i];
      FilterSnoc(HasIncludes, list, i);
      FilterSnoc(HasSymbols, list, i);
      if |a.includes| > 0 {
        MapAppendOne(CpuRule, Filter(HasIncludes, list[..i]), a);
        cpuRules := cpuRules + [CpuRule(a)];
      }
      if |a.symbolList| > 0 {
        MapAppendOne(SymbolsRule, Filter(HasSymbols, list[..i]), a);
        symbolRules := symbolRules + [SymbolsRule(a)];
      }
    }
    assert list[..|list|] == list;
  }

  /** An area gets a CPU rule exactly when its includes text is not empty, and
      a symbols rule exactly when its symbol table is not; every rule comes
      from an area of the list. */
  lemma GenCpuSelection(list: seq<CpuGenArea>, a: CpuGenArea)
    requires a in list
    ensures HasIncludes(a) ==> CpuRule(a) in Map(CpuRule, Filter(HasIncludes, list))
    ensures HasSymbols(a) ==> SymbolsRule(a) in Map(SymbolsRule, Filter(HasSymbols, list))
  {
    FilterMembers(HasIncludes, list, a);
    FilterMembers(HasSymbols, list, a);
    var f := Filter(HasIncludes, list);
    if HasIncludes(a) {
      var i :| 0 <= i < |f| && f[i] == a;
      assert Map(CpuRule, f)[i] == CpuRule(a);
    }
    var g := Filter(HasSymbols, list);
    if HasSymbols(a) {
      var i :| 0 <= i < |g| && g[i] == a;
      assert Map(SymbolsRule, g)[i] == SymbolsRule(a);
    }
  }

  /** Without an `output_file` option the rules are `<dir>/CPU.scl` and `<dir>/symbols.asc`;
      a `null` option counts as absent. */
  lemma DefaultRuleNames(a: CpuGenArea)
    requires Nullish(Get(a.options, "output_file"))
    ensures CpuRule(a).name == ToString(a.outputDir) + "/CPU.scl"
    ensures SymbolsRule(a).name == ToString(a.outputDir) + "/symbols.asc"
  {
  }
}

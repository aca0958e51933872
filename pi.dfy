/** The pulse-input converter (src/converters/PI.js): FM350-2 counter modules,
    their numbered address symbols, the module and channel numbers derived
    from the resolved address, and one conversion rule per PI document. */
module PiConverter {
  import opened Js
  import opened Seqs

  const NAME: string := "PI_Proc"
  const LOOP_NAME: string := "PI_Loop"
  const FM3502_CNT_NAME: string := "FM350-2"

  /** `BUILDIN`, as the list of `[name, block, type, comment]` definitions its
      YAML text denotes. */
  const BUILDIN: seq<JsVal> := [
    Arr([Str(NAME), Str("FB350"), Str(NAME), Str("PI main FB")]),
    Arr([Str(LOOP_NAME), Str("FC350"), Str(LOOP_NAME), Str("main PI cyclic call function")]),
    Arr([Str(FM3502_CNT_NAME), Str("UDT350"), Str(FM3502_CNT_NAME), Str("FM350-2 count DB")])
  ]

  /** The built-in definitions declare the main function block, the loop
      function and the counter type, each under its own name. */
  lemma BuiltinBlocks()
    ensures |BUILDIN| == 3
    ensures forall i :: 0 <= i < 3 ==>
      BUILDIN[i].Arr? && |BUILDIN[i].items| == 4 && BUILDIN[i].items[0] == BUILDIN[i].items[2]
    ensures [BUILDIN[0].items[1], BUILDIN[1].items[1], BUILDIN[2].items[1]]
      == [Str("FB350"), Str("FC350"), Str("UDT350")]
  {
  }

  /** `is_type` */
  predicate IsType(t: string)
  {
    Upper(t) == "PI"
  }

  lemma IsTypeIgnoresCase(t: string)
    ensures IsType(t) <==> Lower(t) == "pi"
  {
    assert Upper("pi") == "PI";
    UpperMatchesIffLowerMatches(t, "pi");
  }

  /** The properties of one entry of a PI document's `list` that the converter
      reads and writes.  `moduleNo` and `channelNo` are `undefined` until `build`. */
  datatype PiModule = PiModule(
    db: JsVal,
    mtype: JsVal,
    moduleAddr: JsVal,
    comment: JsVal,
    countDb: JsVal,
    moduleNo: JsVal,
    channelNo: JsVal)

  /** A `list` entry as the converter sees it; a non-object has no properties. */
  function ModuleOf(v: JsVal): PiModule
  {
    PiModule(Get(v, "DB"), Get(v, "type"), Get(v, "module_addr"), Get(v, "comment"),
             Get(v, "count_DB"), Get(v, "module_no"), Get(v, "channel_no"))
  }

  /** One `make_prop_symbolic(module, prop, CPU, {default_type})` call: the
      definition the property held and the type it defaults to. */
  datatype Registration = Registration(prop: string, def: JsVal, defaultType: string)

  /** The symbol name of the `k`-th module's address (counted from 1). */
  function AddrName(k: nat): string
  {
    FM3502_CNT_NAME + "_" + NatToString(k) + "_addr"
  }

  /** `module.DB[3] ??= module.comment` when `DB` is an array. */
  function DbWithComment(db: JsVal, comment: JsVal): JsVal
  {
    if db.Arr? then Arr(DefaultAt(db.items, 3, comment)) else db
  }

  /** The body of `parse_symbols`' loop for the `k`-th module. */
  function ParseModule(m: PiModule, k: nat): Result<PiModule>
  {
    if !Truthy(m.db) then Err(ModuleWithoutDb)
    else
      var t := Coalesce(m.mtype, Str(FM3502_CNT_NAME));
      if t != Str(FM3502_CNT_NAME) then Err(UnsupportedModuleType)
      else Ok(m.(mtype := t,
                 moduleAddr := Arr([Str(AddrName(k)), Str("IW" + ToString(m.moduleAddr))]),
                 db := DbWithComment(m.db, m.comment)))
  }

  /** The three properties a parsed module hands to the symbol table, in order. */
  function Registrations(m: PiModule): seq<Registration>
  {
    [Registration("module_addr", m.moduleAddr, "WORD"),
     Registration("DB", m.db, NAME),
     Registration("count_DB", m.countDb, FM3502_CNT_NAME)]
  }

  /** How far `parse_symbols` got through a list: the modules it rewrote, the
      registrations it made and the error that stopped it, if any. */
  datatype PiScan = PiScan(done: seq<PiModule>, regs: seq<Registration>, failure: Option<Error>)

  function Scan(ms: seq<PiModule>): (r: PiScan)
    ensures |r.done| <= |ms|
    ensures r.failure.None? ==> |r.done| == |ms|
    ensures |r.regs| == 3 * |r.done|
  {
    if |ms| == 0 then PiScan([], [], None)
    else
      var p := Scan(ms[..|ms| - 1]);
      if p.failure.Some? then p
      else match ParseModule(ms[|ms| - 1], |ms|)
        case Err(e) => p.(failure := Some(e))
        case Ok(m) => PiScan(p.done + [m], p.regs + Registrations(m), None)
  }

  /** Appending three registrations keeps the earlier groups of three and adds
      one group at the end. */
  lemma ChunksOfAppend(regs: seq<Registration>, more: seq<Registration>, i: nat)
    requires |more| == 3 && |regs| % 3 == 0 && 3 * i + 3 <= |regs| + 3
    ensures 3 * i + 3 <= |regs| ==> (regs + more)[3 * i..3 * i + 3] == regs[3 * i..3 * i + 3]
    ensures 3 * i == |regs| ==> (regs + more)[3 * i..3 * i + 3] == more
  {
  }

  /** The scan rewrites the modules in order and stops at the first module
      that fails: every module before it is parsed at its own position, and
      nothing after it is touched. */
  lemma {:induction false} ScanSpec(ms: seq<PiModule>)
    ensures var r := Scan(ms);
      (forall i :: 0 <= i < |r.done| ==> ParseModule(ms[i], i + 1) == Ok(r.done[i]))
      && |r.regs| == 3 * |r.done|
      && (forall i :: 0 <= i < |r.done| ==> r.regs[3 * i..3 * i + 3] == Registrations(r.done[i]))
      && (r.failure.Some? ==> ParseModule(ms[|r.done|], |r.done| + 1) == Err(r.failure.value))
  {
    if |ms| > 0 {
      var init := ms[..|ms| - 1];
      ScanSpec(init);
      var p := Scan(init);
      assert forall i :: 0 <= i < |init| ==> init[i] == ms[i];
      if p.failure.None? {
        match ParseModule(ms[|ms| - 1], |ms|)
        case Err(e) =>
        case Ok(m) =>
          var r := Scan(ms);
          assert r.done == p.done + [m];
          assert r.regs == p.regs + Registrations(m);
          forall i | 0 <= i < |r.done|
            ensures r.regs[3 * i..3 * i + 3] == Registrations(r.done[i])
          {
            ChunksOfAppend(p.regs, Registrations(m), i);
          }
      }
    }
  }

  /** The scan succeeds exactly when every module parses at its position. */
  lemma {:induction false} ScanSucceedsIff(ms: seq<PiModule>)
    ensures Scan(ms).failure.None? <==> forall i :: 0 <= i < |ms| ==> ParseModule(ms[i], i + 1).Ok?
  {
    ScanSpec(ms);
    if |ms| > 0 {
      var init := ms[..|ms| - 1];
      ScanSucceedsIff(init);
      assert forall i :: 0 <= i < |init| ==> init[i] == ms[i];
    }
  }

  /** A module is rejected without `DB`, or with a type other than FM350-2;
      a missing type becomes FM350-2. */
  lemma ParseModuleErrors(m: PiModule, k: nat)
    ensures !Truthy(m.db) ==> ParseModule(m, k) == Err(ModuleWithoutDb)
    ensures Truthy(m.db) && Nullish(m.mtype) ==> ParseModule(m, k).Ok?
    ensures Truthy(m.db) && !Nullish(m.mtype) ==>
      (ParseModule(m, k).Ok? <==> m.mtype == Str(FM3502_CNT_NAME))
    ensures ParseModule(m, k).Err? ==> ParseModule(m, k).error in {ModuleWithoutDb, UnsupportedModuleType}
  {
  }

  /** The type test is case-sensitive. */
  lemma LowerCaseTypeRejected(m: PiModule, k: nat)
    requires Truthy(m.db) && m.mtype == Str("fm350-2")
    ensures ParseModule(m, k) == Err(UnsupportedModuleType)
  {
    assert Str("fm350-2") != Str(FM3502_CNT_NAME) by { assert "fm350-2"[0] != FM3502_CNT_NAME[0]; }
  }

  /** A parsed module: type FM350-2, the numbered address definition bound to
      the input word it named, and `DB[3]` filled only where it was missing. */
  lemma ParsedModuleShape(m: PiModule, k: nat)
    requires ParseModule(m, k).Ok?
    ensures var p := ParseModule(m, k).value;
      p.mtype == Str(FM3502_CNT_NAME)
      && p.moduleAddr == Arr([Str(AddrName(k)), Str("IW" + ToString(m.moduleAddr))])
      && p.comment == m.comment && p.countDb == m.countDb
      && (m.db.Arr? ==>
            p.db.Arr? && |p.db.items| >= 4
            && p.db.items[3] == (if |m.db.items| > 3 && !Nullish(m.db.items[3]) then m.db.items[3] else m.comment)
            && forall i :: 0 <= i < |m.db.items| && i != 3 ==> p.db.items[i] == m.db.items[i])
      && (!m.db.Arr? ==> p.db == m.db)
  {
  }

  /** Different positions give different address symbols. */
  lemma AddrNamesDistinct(j: nat, k: nat)
    requires j != k
    ensures AddrName(j) != AddrName(k)
  {
    var pre := FM3502_CNT_NAME + "_";
    if AddrName(j) == AddrName(k) {
      var a := NatToString(j) + "_addr";
      var b := NatToString(k) + "_addr";
      assert AddrName(j) == pre + a && AddrName(k) == pre + b;
      assert a == AddrName(j)[|pre|..] && b == AddrName(k)[|pre|..];
      assert NatToString(j) == a[..|a| - 5] && NatToString(k) == b[..|b| - 5];
      NatToStringInjective(j, k);
    }
  }

  /** The module list of one PI document and its `options.has_FM3502` flag,
      as `parse_symbols` and `build` change them in place. */
  class PiArea {
    var modules: seq<PiModule>
    var hasFM3502: bool
    var registered: seq<Registration>

    constructor (list: seq<JsVal>)
      ensures modules == Map(ModuleOf, list)
      ensures !hasFM3502 && registered == []
    {
      modules := Map(ModuleOf, list);
      hasFM3502 := false;
      registered := [];
    }

    /** `parse_symbols`: rewrites the modules one by one with a running 1-based
        index; a failing module stops the loop and keeps what was done. */
    method ParseSymbols() returns (r: Outcome)
      modifies this
      ensures var s := Scan(old(modules));
        modules == s.done + old(modules)[|s.done|..]
        && registered == old(registered) + s.regs
        && hasFM3502 == (old(hasFM3502) || |s.done| > 0)
        && r == (if s.failure.Some? then Fail(s.failure.value) else Pass)
    {
      var ms := modules;
      var done: seq<PiModule> := [];
      var regs: seq<Registration> := [];
      var index := 0;
      ghost var start := hasFM3502;
      var before := registered;
      while index < |ms|
        invariant 0 <= index <= |ms|
        invariant Scan(ms[..index]) == PiScan(done, regs, None)
        invariant |done| == index
        invariant modules == done + ms[index..]
        invariant before == old(registered) && registered == before + regs
        invariant hasFM3502 == (start || index > 0)
      {
        assert ms[..index + 1][..index] == ms[..index];
        var m := ParseModule(ms[index], index + 1);
        if m.Err? {
          assert Scan(ms[..index + 1]).failure == Some(m.error);
          ScanStops(ms, index + 1);
          return Fail(m.error);
        }
        hasFM3502 := true;
        done := done + [m.value];
        regs := regs + Registrations(m.value);
        index := index + 1;
        modules := done + ms[index..];
        registered := before + regs;
      }
      assert ms[..index] == ms;
      return Pass;
    }

    /** `build`, given the block number each module's address symbol resolved to
        (`None` where `module_addr` is still an array). */
    method Build(blockNos: seq<Option<nat>>) returns (r: Outcome)
      requires |blockNos| == |modules|
      modifies this
      ensures var b := BuildScan(old(modules), blockNos);
        modules == b.0 + old(modules)[|b.0|..]
        && r == (if b.1.Some? then Fail(b.1.value) else Pass)
      ensures hasFM3502 == old(hasFM3502) && registered == old(registered)
    {
      var ms := modules;
      var i := 0;
      var done: seq<PiModule> := [];
      while i < |ms|
        invariant 0 <= i <= |ms| && |done| == i
        invariant BuildScan(ms[..i], blockNos[..i]) == (done, None)
        invariant modules == done + ms[i..]
        invariant hasFM3502 == old(hasFM3502) && registered == old(registered)
      {
        assert ms[..i + 1][..i] == ms[..i];
        assert blockNos[..i + 1][..i] == blockNos[..i];
        match blockNos[i]
        case None =>
          BuildScanStops(ms, blockNos, i + 1);
          return Fail(ModuleAddrUnresolved);
        case Some(n) =>
          done := done + [Numbered(ms[i], n)];
          i := i + 1;
          modules := done + ms[i..];
      }
      assert ms[..i] == ms && blockNos[..i] == blockNos;
      return Pass;
    }
  }

  /** A failure after a prefix is the failure of the whole list. */
  lemma {:induction false} ScanStops(ms: seq<PiModule>, n: nat)
    requires n <= |ms| && Scan(ms[..n]).failure.Some?
    ensures Scan(ms) == Scan(ms[..n])
    decreases |ms| - n
  {
    if n < |ms| {
      assert ms[..n + 1][..n] == ms[..n];
      ScanStops(ms, n + 1);
    } else {
      assert ms[..n] == ms;
    }
  }

  /** A module once its address resolved to block number `n`. */
  function Numbered(m: PiModule, n: nat): PiModule
  {
    m.(moduleNo := Str(FixedHex(n, 4)), channelNo := Str(FixedHex(n * 8, 8)))
  }

  /** How far `build` got: the numbered modules and the error that stopped it. */
  function BuildScan(ms: seq<PiModule>, bs: seq<Option<nat>>): (r: (seq<PiModule>, Option<Error>))
    requires |bs| == |ms|
    ensures |r.0| <= |ms|
    ensures r.1.None? ==> |r.0| == |ms|
    ensures r.1.Some? ==> r.1 == Some(ModuleAddrUnresolved)
  {
    if |ms| == 0 then ([], None)
    else
      var p := BuildScan(ms[..|ms| - 1], bs[..|bs| - 1]);
      if p.1.Some? then p
      else match bs[|bs| - 1]
        case None => (p.0, Some(ModuleAddrUnresolved))
        case Some(n) => (p.0 + [Numbered(ms[|ms| - 1], n)], None)
  }

  lemma {:induction false} BuildScanStops(ms: seq<PiModule>, bs: seq<Option<nat>>, n: nat)
    requires |bs| == |ms| && n <= |ms|
    requires BuildScan(ms[..n], bs[..n]).1.Some?
    ensures BuildScan(ms, bs) == BuildScan(ms[..n], bs[..n])
    decreases |ms| - n
  {
    if n < |ms| {
      assert ms[..n + 1][..n] == ms[..n];
      assert bs[..n + 1][..n] == bs[..n];
      BuildScanStops(ms, bs, n + 1);
    } else {
      assert ms[..n] == ms && bs[..n] == bs;
    }
  }

  /** Every module `build` numbered got the numbers of its own resolved block
      number. */
  lemma {:induction false} BuildScanNumbers(ms: seq<PiModule>, bs: seq<Option<nat>>)
    requires |bs| == |ms|
    ensures var r := BuildScan(ms, bs);
      forall i :: 0 <= i < |r.0| ==> bs[i].Some? && r.0[i] == Numbered(ms[i], bs[i].value)
  {
    if |ms| > 0 {
      var ms', bs' := ms[..|ms| - 1], bs[..|bs| - 1];
      BuildScanNumbers(ms', bs');
      var p := BuildScan(ms', bs');
      var r := BuildScan(ms, bs);
      if p.1.None? && bs[|bs| - 1].Some? {
        forall i | 0 <= i < |r.0| ensures bs[i].Some? && r.0[i] == Numbered(ms[i], bs[i].value) {
          if i < |p.0| {
            assert r.0[i] == p.0[i] && ms'[i] == ms[i] && bs'[i] == bs[i];
          }
        }
      }
    }
  }

  /** `build` stops at the first unresolved address, and succeeds exactly when
      there is none. */
  lemma {:induction false} BuildScanStopsAtUnresolved(ms: seq<PiModule>, bs: seq<Option<nat>>)
    requires |bs| == |ms|
    ensures var r := BuildScan(ms, bs);
      (r.1.Some? ==> bs[|r.0|].None?)
      && (r.1.None? <==> forall i :: 0 <= i < |bs| ==> bs[i].Some?)
  {
    if |ms| > 0 {
      var ms', bs' := ms[..|ms| - 1], bs[..|bs| - 1];
      BuildScanStopsAtUnresolved(ms', bs');
      assert forall i :: 0 <= i < |bs'| ==> bs'[i] == bs[i];
    }
  }

  /** `build` succeeds exactly when every address resolved, numbering each
      module from its own block number; otherwise it stops at the first
      unresolved one. */
  lemma BuildScanSpec(ms: seq<PiModule>, bs: seq<Option<nat>>)
    requires |bs| == |ms|
    ensures var r := BuildScan(ms, bs);
      (forall i :: 0 <= i < |r.0| ==> bs[i].Some? && r.0[i] == Numbered(ms[i], bs[i].value))
      && (r.1.Some? ==> bs[|r.0|].None?)
      && (r.1.None? <==> forall i :: 0 <= i < |bs| ==> bs[i].Some?)
  {
    BuildScanNumbers(ms, bs);
    BuildScanStopsAtUnresolved(ms, bs);
  }

  /** The channel number is the module number times eight, both as hexadecimal
      numerals of at least four and eight digits. */
  lemma ChannelIsEightTimesModule(m: PiModule, n: nat)
    ensures var p := Numbered(m, n);
      p.moduleNo.Str? && p.channelNo.Str? && IsHex(p.moduleNo.s) && IsHex(p.channelNo.s)
      && HexValue(p.channelNo.s) == 8 * HexValue(p.moduleNo.s)
      && |p.moduleNo.s| >= 4 && |p.channelNo.s| >= 8
      && (n < 0x1_0000 ==> |p.moduleNo.s| == 4 && |p.channelNo.s| == 8)
  {
    FixedHexCorrect(n, 4);
    FixedHexCorrect(n * 8, 8);
    assert Pow16(4) == 0x1_0000;
    assert Pow16(8) == 0x1_0000_0000;
  }

  /** What `gen` reads of one PI area. */
  datatype PiGenArea = PiGenArea(
    name: string,
    outputDir: JsVal,
    includes: string,
    loopCode: string,
    modules: JsVal,
    options: JsVal)

  /** `const { output_file = LOOP_NAME } = options`: the default replaces only
      `undefined`. */
  function OutputFile(options: JsVal): string
  {
    var f := Get(options, "output_file");
    if f.Undefined? then LOOP_NAME else ToString(f)
  }

  function PiRule(a: PiGenArea): Rule
  {
    Rule(ToString(a.outputDir) + "/" + OutputFile(a.options) + ".scl",
         Obj([("name", Str(a.name)), ("modules", a.modules), ("includes", Str(a.includes)),
              ("loop_additional_code", Str(a.loopCode)), ("NAME", Str(NAME)),
              ("LOOP_NAME", Str(LOOP_NAME)), ("FM3502_CNT_NAME", Str(FM3502_CNT_NAME))]))
  }

  /** `gen`: one rule per PI area, in order. */
  method Gen(list: seq<PiGenArea>) returns (rules: seq<Rule>)
    ensures rules == Map(PiRule, list)
  {
    rules := [];
    for i := 0 to |list|
      invariant rules == Map(PiRule, list[..i])
    {
      MapSnoc(PiRule, list, i);
      rules := rules + [PiRule(list[i])];
    }
    assert list[..|list|] == list;
  }

  /** The rule file is `<output_dir>/PI_Loop.scl` when `output_file` is absent,
      but `<output_dir>/null.scl` when it is `null`. */
  lemma RuleNameDefaults(a: PiGenArea)
    ensures Get(a.options, "output_file") == Undefined ==>
      PiRule(a).name == ToString(a.outputDir) + "/PI_Loop.scl"
    ensures Get(a.options, "output_file") == Null ==>
      PiRule(a).name == ToString(a.outputDir) + "/null.scl"
  {
  }
}

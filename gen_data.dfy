/** The compilation driver (src/gen_data.js): the controller registry, the
    first pass that registers every configuration document with its
    controller, the uncommented `.zyml` dump and the order of the second pass. */
module GenData {
  import opened Js
  import opened Seqs
  import CpuConverter
  import PiConverter
  import SclIncludes

  // ---------------------------------------------------------------------
  // Document kinds and the converter registry

  datatype DocType = CPU | AI | PI | SC | MT | Valve | Motor | Alarm

  /** `TYPES`: the order in which the recognizers are tried and the `.zyml`
      sections written. */
  const TYPES: seq<DocType> := [CPU, AI, PI, SC, MT, Valve, Motor, Alarm]

  /** The key order of `conf_list` (without its trailing `symbols` entry): the
      order in which the second pass runs the `build_<type>` steps. */
  const CONF_ORDER: seq<DocType> := [CPU, AI, PI, Valve, Motor, Alarm, MT, SC]

  function TypeName(t: DocType): string
  {
    match t
    case CPU => "CPU" case AI => "AI" case PI => "PI" case SC => "SC"
    case MT => "MT" case Valve => "valve" case Motor => "motor" case Alarm => "alarm"
  }

  /** Both orders list every kind exactly once. */
  lemma KindOrders()
    ensures forall t: DocType :: t in TYPES && t in CONF_ORDER
    ensures |TYPES| == |CONF_ORDER| == 8
    ensures forall i, j :: 0 <= i < j < 8 ==> TYPES[i] != TYPES[j] && CONF_ORDER[i] != CONF_ORDER[j]
  {
    forall t: DocType ensures t in TYPES && t in CONF_ORDER {
      match t
      case CPU => assert TYPES[0] == t && CONF_ORDER[0] == t;
      case AI => assert TYPES[1] == t && CONF_ORDER[1] == t;
      case PI => assert TYPES[2] == t && CONF_ORDER[2] == t;
      case SC => assert TYPES[3] == t && CONF_ORDER[7] == t;
      case MT => assert TYPES[4] == t && CONF_ORDER[6] == t;
      case Valve => assert TYPES[5] == t && CONF_ORDER[3] == t;
      case Motor => assert TYPES[6] == t && CONF_ORDER[4] == t;
      case Alarm => assert TYPES[7] == t && CONF_ORDER[5] == t;
    }
  }

  /** What the converters of the kinds outside this model contribute: their
      recognizers, built-in symbol lists, `parse_symbols` steps and whether
      they have a `build` step.  The CPU and PI entries are fixed below. */
  datatype Registry = Registry(
    isType: (DocType, string) -> bool,
    buildin: DocType -> Option<JsVal>,
    parse: (DocType, JsVal, JsVal) -> Result<JsVal>,
    hasBuild: DocType -> bool)

  /** `is_type_<t>(type)` */
  predicate Recognizes(reg: Registry, t: DocType, typ: string)
  {
    match t
    case CPU => CpuConverter.IsTypeCpu(typ)
    case PI => PiConverter.IsType(typ)
    case _ => reg.isType(t, typ)
  }

  /** `TYPES.find(t => is_type_<t>(type))` from position `i` on. */
  function FindType(reg: Registry, typ: string, i: nat): (r: Option<DocType>)
    requires i <= |TYPES|
    ensures r.Some? ==> Recognizes(reg, r.value, typ)
    decreases |TYPES| - i
  {
    if i == |TYPES| then None
    else if Recognizes(reg, TYPES[i], typ) then Some(TYPES[i])
    else FindType(reg, typ, i + 1)
  }

  function Classify(reg: Registry, typ: string): Option<DocType>
  {
    FindType(reg, typ, 0)
  }

  /** The kind is the first entry of `TYPES` whose recognizer accepts the
      type; there is none exactly when no recognizer accepts it. */
  lemma {:induction false} FindTypeFirst(reg: Registry, typ: string, i: nat)
    requires i <= |TYPES|
    ensures FindType(reg, typ, i).None? <==> forall j :: i <= j < |TYPES| ==> !Recognizes(reg, TYPES[j], typ)
    ensures FindType(reg, typ, i).Some? ==>
      exists j :: i <= j < |TYPES| && TYPES[j] == FindType(reg, typ, i).value
        && forall l :: i <= l < j ==> !Recognizes(reg, TYPES[l], typ)
    decreases |TYPES| - i
  {
    if i < |TYPES| && !Recognizes(reg, TYPES[i], typ) {
      FindTypeFirst(reg, typ, i + 1);
    }
  }

  lemma ClassifyFirst(reg: Registry, typ: string)
    ensures Classify(reg, typ).None? <==> forall t :: t in TYPES ==> !Recognizes(reg, t, typ)
    ensures Classify(reg, typ).Some? ==>
      exists j :: 0 <= j < |TYPES| && TYPES[j] == Classify(reg, typ).value
        && Recognizes(reg, TYPES[j], typ)
        && forall l :: 0 <= l < j ==> !Recognizes(reg, TYPES[l], typ)
  {
    FindTypeFirst(reg, typ, 0);
  }

  /** A document typed `cpu` in any case is a CPU document. */
  lemma CpuDocumentsClassify(reg: Registry, typ: string)
    requires Lower(typ) == "cpu"
    ensures Classify(reg, typ) == Some(CPU)
  {
    CpuConverter.IsTypeCpuIgnoresCase(typ);
  }

  /** `converter[<TYPE>_BUILDIN]` */
  function Buildin(reg: Registry, t: DocType): Option<JsVal>
  {
    match t
    case CPU => Some(Arr(Map(CpuConverter.Definition, CpuConverter.CPU_BUILDIN)))
    case PI => Some(Arr(PiConverter.BUILDIN))
    case _ => reg.buildin(t)
  }

  // ---------------------------------------------------------------------
  // Controllers

  /** An `IntIncHL` allocator, known here only by its first number. */
  datatype IntAlloc = IntIncHL(base: nat)

  /** An `S7IncHL` allocator, known here only by its first byte and bit. */
  datatype BitAlloc = S7IncHL(byte: nat, bit: nat)

  /** Where a batch of symbol definitions handed to `add_symbols` came from. */
  datatype Origin =
    | FromIncludes
    | Builtin
    | FromDocument
    | Relocation
    | Property(prop: string, defaultType: string)
    | FromConverter

  /** One `add_symbols` (or `make_prop_symbolic`) call, with the raw
      definitions it received. */
  datatype SymbolBatch = SymbolBatch(origin: Origin, defs: JsVal)

  /** A controller's resources.  The symbol table is the log of what was
      handed to it; `confs` holds the `push_conf` texts by kind. */
  datatype Cpu = Cpu(
    name: string,
    connIds: IntAlloc,
    dbs: IntAlloc,
    fbs: IntAlloc,
    fcs: IntAlloc,
    udts: IntAlloc,
    polls: IntAlloc,
    ma: BitAlloc,
    ia: BitAlloc,
    qa: BitAlloc,
    symbols: seq<SymbolBatch>,
    connHosts: seq<string>,
    outputDir: JsVal,
    device: JsVal,
    confs: map<DocType, string>)

  /** The record `get_cpu` creates for a name it has not seen. */
  function NewCpu(name: string): Cpu
  {
    Cpu(name, IntIncHL(16), IntIncHL(100), IntIncHL(256), IntIncHL(256), IntIncHL(256),
        IntIncHL(1), S7IncHL(0, 0), S7IncHL(0, 0), S7IncHL(0, 0), [], [], Str(name), Undefined, map[])
  }

  /** `CPU[doctype]` is set (a stored text is truthy when it is not empty). */
  predicate HasConf(c: Cpu, k: DocType)
  {
    k in c.confs && c.confs[k] != ""
  }

  /** What a PI area keeps of `parse_symbols`: the rewritten modules and
      whether `options.has_FM3502` was set. */
  datatype AreaPart = Plain | PiPart(modules: seq<PiConverter.PiModule>, hasFM3502: bool)

  /** `{ CPU, list, includes, loop_additional_code, options }` as pushed onto
      `conf_list[doctype]`; the controller is referred to by name. */
  datatype Area = Area(
    cpu: string,
    list: JsVal,
    includes: string,
    loopCode: string,
    options: JsVal,
    part: AreaPart)

  /** The driver's state: `CPUs` with its insertion order, and `conf_list`. */
  datatype State = State(cpus: map<string, Cpu>, order: seq<string>, confList: map<DocType, seq<Area>>)

  const INITIAL: State := State(map[], [], map[])

  function AreasOf(st: State, k: DocType): seq<Area>
  {
    if k in st.confList then st.confList[k] else []
  }

  /** No name occurs twice. */
  ghost predicate Unique(order: seq<string>)
  {
    forall i, j :: 0 <= i < j < |order| ==> order[i] != order[j]
  }

  /** The areas of kind `k` belong to known controllers whose configuration of
      that kind is stored, one area per controller. */
  ghost predicate AreasOk(cpus: map<string, Cpu>, k: DocType, areas: seq<Area>)
  {
    (forall i :: 0 <= i < |areas| ==> areas[i].cpu in cpus && HasConf(cpus[areas[i].cpu], k))
    && (forall i, j :: 0 <= i < j < |areas| ==> areas[i].cpu != areas[j].cpu)
  }

  /** The registry invariant: the order lists every controller once; each
      controller carries its own name; every list of areas is `AreasOk`. */
  ghost predicate Valid(st: State)
  {
    Unique(st.order)
    && (forall n :: n in st.cpus <==> n in st.order)
    && (forall n :: n in st.cpus ==> st.cpus[n].name == n)
    && (forall k :: AreasOk(st.cpus, k, AreasOf(st, k)))
  }

  /** No controller is dropped and no stored configuration is lost. */
  ghost predicate Grows(cpus: map<string, Cpu>, cpus': map<string, Cpu>)
  {
    forall n, k :: n in cpus && HasConf(cpus[n], k) ==> n in cpus' && HasConf(cpus'[n], k)
  }

  lemma AreasOkGrow(cpus: map<string, Cpu>, cpus': map<string, Cpu>, k: DocType, areas: seq<Area>)
    requires AreasOk(cpus, k, areas) && Grows(cpus, cpus')
    ensures AreasOk(cpus', k, areas)
  {
    forall i | 0 <= i < |areas|
      ensures areas[i].cpu in cpus' && HasConf(cpus'[areas[i].cpu], k)
    {
      assert areas[i].cpu in cpus && HasConf(cpus[areas[i].cpu], k);
    }
  }

  lemma AreasOkAppend(cpus: map<string, Cpu>, k: DocType, areas: seq<Area>, a: Area)
    requires AreasOk(cpus, k, areas) && a.cpu in cpus && HasConf(cpus[a.cpu], k)
    requires forall i :: 0 <= i < |areas| ==> areas[i].cpu != a.cpu
    ensures AreasOk(cpus, k, areas + [a])
  {
  }

  lemma InitialValid()
    ensures Valid(INITIAL)
  {
  }

  /** `get_cpu`: `CPUs[name] ??= { ... }`. */
  function GetCpuState(st: State, name: string): State
  {
    if name in st.cpus then st
    else State(st.cpus[name := NewCpu(name)], st.order + [name], st.confList)
  }

  /** A first call creates the record with the documented bases and an empty
      symbol table; a later call returns the same record and changes nothing;
      no other controller is affected. */
  lemma GetCpuSpec(st: State, name: string)
    ensures var s := GetCpuState(st, name);
      name in s.cpus
      && (name in st.cpus ==> s == st)
      && (name !in st.cpus ==>
            s.cpus[name] == Cpu(name, IntIncHL(16), IntIncHL(100), IntIncHL(256), IntIncHL(256),
                                IntIncHL(256), IntIncHL(1), S7IncHL(0, 0), S7IncHL(0, 0), S7IncHL(0, 0),
                                [], [], Str(name), Undefined, map[])
            && s.order == st.order + [name])
      && (forall m :: m != name ==> (m in s.cpus <==> m in st.cpus))
      && (forall m :: m != name && m in st.cpus ==> s.cpus[m] == st.cpus[m])
  {
  }

  lemma GetCpuIdempotent(st: State, name: string)
    ensures GetCpuState(GetCpuState(st, name), name) == GetCpuState(st, name)
  {
  }

  lemma GetCpuPreservesValid(st: State, name: string)
    requires Valid(st)
    ensures Valid(GetCpuState(st, name))
  {
    var s := GetCpuState(st, name);
    if name !in st.cpus {
      assert name !in st.order;
      assert Grows(st.cpus, s.cpus);
      forall k ensures AreasOk(s.cpus, k, AreasOf(s, k)) {
        assert AreasOf(s, k) == AreasOf(st, k);
        AreasOkGrow(st.cpus, s.cpus, k, AreasOf(st, k));
      }
    }
  }

  // ---------------------------------------------------------------------
  // add_conf

  /** One configuration document as the loader delivers it, with what the
      invisible helpers make of it: `dump(conf)` and, for the `includes` and
      `loop_additional_code` lists of file names, the text `fetch_includes`
      reads from those files. */
  datatype Source = Source(conf: JsVal, dumped: string, includeFiles: string, loopFiles: string)

  /** `fetch_includes`: a string is the code itself, a list names files, and
      anything else gives no code. */
  function FetchIncludes(v: JsVal, fileText: string): string
  {
    match v
    case Str(s) => s
    case Arr(_) => fileText
    case _ => ""
  }

  /** `const { name, CPU: CPU_name = name } = conf`: the default applies only
      when `CPU` is `undefined`. */
  function CpuNameOf(conf: JsVal): JsVal
  {
    var c := Get(conf, "CPU");
    if c.Undefined? then Get(conf, "name") else c
  }

  /** The checks `add_conf` makes before it touches any controller: the
      controller name and the kind of the document. */
  function Validate(conf: JsVal, reg: Registry): (r: Result<(string, DocType)>)
    ensures r.Ok? ==>
      CpuNameOf(conf) == Str(r.value.0) && Get(conf, "type").Str?
      && Classify(reg, Get(conf, "type").s) == Some(r.value.1)
    ensures Nullish(conf) ==> r == Err(ConfNotObject)
    ensures !Nullish(conf) && !CpuNameOf(conf).Str? ==> r == Err(CpuNameNotString)
    ensures !Nullish(conf) && CpuNameOf(conf).Str? && !Get(conf, "type").Str? ==> r == Err(TypeNotString)
    ensures (!Nullish(conf) && CpuNameOf(conf).Str? && Get(conf, "type").Str?
             && Classify(reg, Get(conf, "type").s).None?) ==> r == Err(UnsupportedDocType)
  {
    if Nullish(conf) then Err(ConfNotObject)
    else
      var cpuName := CpuNameOf(conf);
      if !cpuName.Str? then Err(CpuNameNotString)
      else
        var typ := Get(conf, "type");
        if !typ.Str? then Err(TypeNotString)
        else match Classify(reg, typ.s)
          case None => Err(UnsupportedDocType)
          case Some(k) => Ok((cpuName.s, k))
  }

  /** The address the symbol table holds for `Clock_Memory`: that of its last
      definition. */
  function ClockMemoryAddr(log: seq<SymbolBatch>): JsVal
  {
    if |log| == 0 then Undefined
    else
      var inBatch := LastClockMemory(log[|log| - 1].defs);
      if inBatch.Some? then inBatch.value else ClockMemoryAddr(log[..|log| - 1])
  }

  function LastClockMemory(defs: JsVal): Option<JsVal>
  {
    match defs
    case Arr(items) => LastClockMemoryIn(items)
    case _ => None
  }

  function LastClockMemoryIn(items: seq<JsVal>): Option<JsVal>
  {
    if |items| == 0 then None
    else
      var d := items[|items| - 1];
      if d.Arr? && |d.items| >= 2 && d.items[0] == Str("Clock_Memory") then Some(d.items[1])
      else LastClockMemoryIn(items[..|items| - 1])
  }

  /** Adding a batch with a later `Clock_Memory` definition moves the anchor
      to that definition's address. */
  lemma ClockMemoryFollowsLastDefinition(log: seq<SymbolBatch>, o: Origin, addr: JsVal)
    ensures ClockMemoryAddr(log + [SymbolBatch(o, Arr([Arr([Str("Clock_Memory"), addr])]))]) == addr
  {
  }

  /** The CPU built-ins define `Clock_Memory` at `MB0`, so a CPU document whose
      own symbols leave it alone keeps the built-in pulse bits. */
  lemma BuiltinClockMemory(log: seq<SymbolBatch>)
    ensures ClockMemoryAddr(log + [SymbolBatch(Builtin, Buildin(Registry((_, _) => false, _ => None, (_, _, _) => Ok(Null), _ => false), CPU).value)]) == Str("MB0")
  {
    var items := Map(CpuConverter.Definition, CpuConverter.CPU_BUILDIN);
    assert items[0] == Arr([Str("Clock_Memory"), Str("MB0")]);
    assert forall i :: 1 <= i < |items| ==> items[i].items[0] != Str("Clock_Memory") by {
      forall i | 1 <= i < |items| ensures items[i].items[0] != Str("Clock_Memory") {
        assert items[i].items[0] == Str(CpuConverter.CPU_BUILDIN[i].0);
        assert CpuConverter.CPU_BUILDIN[i].0[0] == 'P';
      }
    }
    LastClockMemoryInFirst(items);
  }

  lemma {:induction false} LastClockMemoryInFirst(items: seq<JsVal>)
    requires |items| >= 1 && items[0] == Arr([Str("Clock_Memory"), Str("MB0")])
    requires forall i :: 1 <= i < |items| ==> items[i].Arr? && |items[i].items| >= 1 && items[i].items[0] != Str("Clock_Memory")
    ensures LastClockMemoryIn(items) == Some(Str("MB0"))
  {
    if |items| > 1 {
      var init := items[..|items| - 1];
      assert forall i :: 1 <= i < |init| ==> init[i] == items[i];
      LastClockMemoryInFirst(init);
    }
  }

  /** The symbols a converter's `parse_symbols` adds, what the area keeps of
      it, and the error that stopped it. */
  datatype Parsed = Parsed(added: seq<SymbolBatch>, part: AreaPart, failure: Option<Error>)

  function PropertyBatch(r: PiConverter.Registration): SymbolBatch
  {
    SymbolBatch(Property(r.prop, r.defaultType), r.def)
  }

  /** `parse_symbols_<doctype>(area)` for a controller whose log is `log`. */
  function ParseSymbols(reg: Registry, k: DocType, log: seq<SymbolBatch>, list: JsVal, options: JsVal): Parsed
  {
    match k
    case CPU =>
      (match CpuConverter.ParseSymbolsCpu(ClockMemoryAddr(log))
       case Err(e) => Parsed([], Plain, Some(e))
       case Ok(defs) =>
         Parsed(if |defs| == 0 then [] else [SymbolBatch(Relocation, Arr(Map(CpuConverter.Definition, defs)))],
                Plain, None))
    case PI =>
      if !list.Arr? then Parsed([], Plain, Some(ListNotArray))
      else
        var s := PiConverter.Scan(Map(PiConverter.ModuleOf, list.items));
        Parsed(Map(PropertyBatch, s.regs), PiPart(s.done, |s.done| > 0), s.failure)
    case _ =>
      (match reg.parse(k, list, options)
       case Err(e) => Parsed([], Plain, Some(e))
       case Ok(defs) => Parsed([SymbolBatch(FromConverter, defs)], Plain, None))
  }

  function IncludeLog(added: seq<seq<JsVal>>): seq<SymbolBatch>
  {
    Map((b: seq<JsVal>) => SymbolBatch(FromIncludes, Arr(b)), added)
  }

  function BuiltinLog(reg: Registry, k: DocType): seq<SymbolBatch>
  {
    var b := Buildin(reg, k);
    if b.Some? && Truthy(b.value) then [SymbolBatch(Builtin, b.value)] else []
  }

  /** `CPU.push_conf(doctype, text)` */
  function Stored(st: State, name: string, k: DocType, text: string): (r: State)
    requires name in st.cpus
    ensures r.order == st.order && r.confList == st.confList && r.cpus.Keys == st.cpus.Keys
    ensures forall n :: n in st.cpus && n != name ==> r.cpus[n] == st.cpus[n]
    ensures r.cpus[name].name == st.cpus[name].name && r.cpus[name].confs == st.cpus[name].confs[k := text]
  {
    st.(cpus := st.cpus[name := st.cpus[name].(confs := st.cpus[name].confs[k := text])])
  }

  /** `add_symbols(CPU.symbols_dict, ...)` for each batch of `more`. */
  function WithLog(st: State, name: string, more: seq<SymbolBatch>): (r: State)
    requires name in st.cpus
    ensures r.order == st.order && r.confList == st.confList && r.cpus.Keys == st.cpus.Keys
    ensures forall n :: n in st.cpus && n != name ==> r.cpus[n] == st.cpus[n]
    ensures r.cpus[name].name == st.cpus[name].name && r.cpus[name].confs == st.cpus[name].confs
    ensures r.cpus[name].symbols == st.cpus[name].symbols + more
  {
    st.(cpus := st.cpus[name := st.cpus[name].(symbols := st.cpus[name].symbols + more)])
  }

  /** `conf_list[doctype].push(area)` */
  function Appended(st: State, k: DocType, a: Area): (r: State)
    ensures r.order == st.order && r.cpus == st.cpus
    ensures AreasOf(r, k) == AreasOf(st, k) + [a]
    ensures forall k' :: k' != k ==> AreasOf(r, k') == AreasOf(st, k')
  {
    st.(confList := st.confList[k := AreasOf(st, k) + [a]])
  }

  /** The includes text of a document, with its symbol blocks split off. */
  function CutOf(src: Source): SclIncludes.Cut
  {
    SclIncludes.StripBlocks(FetchIncludes(Get(src.conf, "includes"), src.includeFiles))
  }

  function OptionsOf(conf: JsVal): JsVal { Coalesce(Get(conf, "options"), Obj([])) }

  function ListOf(conf: JsVal): JsVal { Coalesce(Get(conf, "list"), Arr([])) }

  function SymbolsOf(conf: JsVal): JsVal { Coalesce(Get(conf, "symbols"), Arr([])) }

  /** The area `add_conf` pushes. */
  function AreaFor(name: string, src: Source, part: AreaPart): Area
  {
    Area(name, ListOf(src.conf), CutOf(src).code, FetchIncludes(Get(src.conf, "loop_additional_code"), src.loopFiles),
         OptionsOf(src.conf), part)
  }

  /** `add_conf` once the controller `name` exists and the document's kind `k`
      is new for it: store the dump, then register the includes' symbols, the
      kind's built-ins, the document's `symbols` and the converter's own, and
      append the area. */
  function Register(st: State, name: string, k: DocType, src: Source, reg: Registry,
                    load: string -> Result<JsVal>): (r: (State, Outcome))
    requires name in st.cpus
    ensures r.0.order == st.order && r.0.cpus.Keys == st.cpus.Keys
    ensures forall n :: n in st.cpus && n != name ==> r.0.cpus[n] == st.cpus[n]
    ensures r.0.cpus[name].name == st.cpus[name].name
    ensures r.0.cpus[name].confs == st.cpus[name].confs[k := src.dumped]
    ensures forall k' :: k' != k ==> AreasOf(r.0, k') == AreasOf(st, k')
    ensures r.1.Fail? ==> AreasOf(r.0, k) == AreasOf(st, k)
    ensures r.1.Pass? ==>
      |AreasOf(r.0, k)| == |AreasOf(st, k)| + 1
      && AreasOf(r.0, k) == AreasOf(st, k) + [AreasOf(r.0, k)[|AreasOf(st, k)|]]
      && AreasOf(r.0, k)[|AreasOf(st, k)|].cpu == name
  {
    var st1 := Stored(st, name, k, src.dumped);
    var inc := SclIncludes.IncludeBatches(CutOf(src).blocks, load);
    var st2 := WithLog(st1, name, IncludeLog(inc.added));
    if inc.failure.Some? then (st2, Fail(inc.failure.value))
    else RegisterSymbols(st2, name, k, src, reg)
  }

  /** The rest of `add_conf` once the includes are in: the kind's built-ins,
      the document's `symbols` and the converter's own, then the area. */
  function RegisterSymbols(st: State, name: string, k: DocType, src: Source, reg: Registry): (r: (State, Outcome))
    requires name in st.cpus
    ensures r.0.order == st.order && r.0.cpus.Keys == st.cpus.Keys
    ensures forall n :: n in st.cpus && n != name ==> r.0.cpus[n] == st.cpus[n]
    ensures r.0.cpus[name].name == st.cpus[name].name && r.0.cpus[name].confs == st.cpus[name].confs
    ensures forall k' :: k' != k ==> AreasOf(r.0, k') == AreasOf(st, k')
    ensures r.1.Fail? ==> AreasOf(r.0, k) == AreasOf(st, k)
    ensures r.1.Pass? ==>
      |AreasOf(r.0, k)| == |AreasOf(st, k)| + 1
      && AreasOf(r.0, k) == AreasOf(st, k) + [AreasOf(r.0, k)[|AreasOf(st, k)|]]
      && AreasOf(r.0, k)[|AreasOf(st, k)|].cpu == name
  {
    var st3 := WithLog(st, name, BuiltinLog(reg, k) + [SymbolBatch(FromDocument, SymbolsOf(src.conf))]);
    var p := ParseSymbols(reg, k, st3.cpus[name].symbols, ListOf(src.conf), OptionsOf(src.conf));
    var st4 := WithLog(st3, name, p.added);
    if p.failure.Some? then (st4, Fail(p.failure.value))
    else (Appended(st4, k, AreaFor(name, src, p.part)), Pass)
  }

  /** `add_conf` */
  function AddConfStep(st: State, src: Source, reg: Registry, load: string -> Result<JsVal>): (State, Outcome)
  {
    match Validate(src.conf, reg)
    case Err(e) => (st, Fail(e))
    case Ok((name, k)) =>
      var st2 := Prepare(st, name, k, src.conf);
      if HasConf(st2.cpus[name], k) then (st2, Fail(DuplicateConfiguration))
      else Register(st2, name, k, src, reg, load)
  }

  /** `get_cpu`, then (for a CPU document) `CPU.device = conf.device`; both
      happen before the duplicate check. */
  function Prepare(st: State, name: string, k: DocType, conf: JsVal): (r: State)
    ensures name in r.cpus && r.order == GetCpuState(st, name).order
    ensures r.cpus[name].confs == GetCpuState(st, name).cpus[name].confs
    ensures r.cpus[name].symbols == GetCpuState(st, name).cpus[name].symbols
    ensures r.cpus[name].device == if k == CPU then Get(conf, "device") else GetCpuState(st, name).cpus[name].device
  {
    var st1 := GetCpuState(st, name);
    var c := st1.cpus[name];
    st1.(cpus := st1.cpus[name := if k == CPU then c.(device := Get(conf, "device")) else c])
  }

  /** Replacing a controller's record by one with the same name and the same
      configurations keeps the registry invariant. */
  lemma SetCpuKeepsValid(st: State, name: string, c: Cpu)
    requires Valid(st) && name in st.cpus
    requires c.name == name && c.confs == st.cpus[name].confs
    ensures Valid(st.(cpus := st.cpus[name := c]))
  {
    var st' := st.(cpus := st.cpus[name := c]);
    assert Grows(st.cpus, st'.cpus);
    forall k0 ensures AreasOk(st'.cpus, k0, AreasOf(st', k0)) {
      AreasOkGrow(st.cpus, st'.cpus, k0, AreasOf(st, k0));
    }
  }

  lemma PreparePreservesValid(st: State, name: string, k: DocType, conf: JsVal)
    requires Valid(st)
    ensures Valid(Prepare(st, name, k, conf))
  {
    GetCpuPreservesValid(st, name);
    var st1 := GetCpuState(st, name);
    var c := st1.cpus[name];
    SetCpuKeepsValid(st1, name, if k == CPU then c.(device := Get(conf, "device")) else c);
  }

  /** A rejected document leaves the registry as it was unless it got as far
      as naming its controller: a bad name or type, or an unknown kind, changes
      nothing. */
  lemma ValidationFailuresChangeNothing(st: State, src: Source, reg: Registry, load: string -> Result<JsVal>)
    requires Validate(src.conf, reg).Err?
    ensures AddConfStep(st, src, reg, load) == (st, Fail(Validate(src.conf, reg).error))
  {
  }

  /** A second document of a kind already registered for its controller stops
      the run with status 2 and keeps the first configuration. */
  lemma DuplicateKeepsFirst(st: State, src: Source, reg: Registry, load: string -> Result<JsVal>)
    requires Validate(src.conf, reg).Ok?
    requires var (name, k) := Validate(src.conf, reg).value; name in st.cpus && HasConf(st.cpus[name], k)
    ensures var (name, k) := Validate(src.conf, reg).value;
      var r := AddConfStep(st, src, reg, load);
      r.1 == Fail(DuplicateConfiguration) && ExitStatus(r.1.error) == Some(2)
      && r.0.cpus[name].confs == st.cpus[name].confs
      && r.0.cpus[name].symbols == st.cpus[name].symbols
      && r.0.confList == st.confList
  {
  }

  /** A document of an unknown kind stops the run with status 1. */
  lemma UnknownKindExits(st: State, src: Source, reg: Registry, load: string -> Result<JsVal>)
    requires !Nullish(src.conf) && CpuNameOf(src.conf).Str? && Get(src.conf, "type").Str?
    requires forall t :: t in TYPES ==> !Recognizes(reg, t, Get(src.conf, "type").s)
    ensures AddConfStep(st, src, reg, load).1 == Fail(UnsupportedDocType)
    ensures ExitStatus(UnsupportedDocType) == Some(1)
  {
    ClassifyFirst(reg, Get(src.conf, "type").s);
  }

  /** On success the controller's log grows by the includes' batches, then the
      built-ins of the kind, then the document's `symbols`, then what the
      converter's `parse_symbols` adds, in that order; the area goes last onto
      its kind's list. */
  lemma RegistrationOrder(st: State, src: Source, reg: Registry, load: string -> Result<JsVal>)
    requires Validate(src.conf, reg).Ok?
    requires AddConfStep(st, src, reg, load).1 == Pass
    ensures var (name, k) := Validate(src.conf, reg).value;
      var s := AddConfStep(st, src, reg, load).0;
      var before := GetCpuState(st, name).cpus[name].symbols;
      var inc := SclIncludes.IncludeBatches(CutOf(src).blocks, load);
      var mid := before + IncludeLog(inc.added) + (BuiltinLog(reg, k) + [SymbolBatch(FromDocument, SymbolsOf(src.conf))]);
      var p := ParseSymbols(reg, k, mid, ListOf(src.conf), OptionsOf(src.conf));
      inc.failure.None? && p.failure.None?
      && s.cpus[name].symbols == mid + p.added
      && s.cpus[name].confs == GetCpuState(st, name).cpus[name].confs[k := src.dumped]
      && AreasOf(s, k) == AreasOf(st, k) + [AreaFor(name, src, p.part)]
      && (forall k' :: k' != k ==> AreasOf(s, k') == AreasOf(st, k'))
  {
    var (name, k) := Validate(src.conf, reg).value;
    var st0 := Prepare(st, name, k, src.conf);
    AddConfRegisters(st, src, reg, load);
    RegisterOrder(st0, name, k, src, reg, load);
  }

  /** A document that passes goes through `Register` on the prepared state,
      which has the areas and the controller's symbols and configurations it
      had before. */
  lemma AddConfRegisters(st: State, src: Source, reg: Registry, load: string -> Result<JsVal>)
    requires Validate(src.conf, reg).Ok?
    requires AddConfStep(st, src, reg, load).1 == Pass
    ensures var (name, k) := Validate(src.conf, reg).value;
      var st0 := Prepare(st, name, k, src.conf);
      && AddConfStep(st, src, reg, load) == Register(st0, name, k, src, reg, load)
      && st0.confList == st.confList
      && st0.cpus[name].symbols == GetCpuState(st, name).cpus[name].symbols
      && st0.cpus[name].confs == GetCpuState(st, name).cpus[name].confs
  {
  }

  /** `RegistrationOrder` for the registering half of `add_conf`. */
  lemma RegisterOrder(st: State, name: string, k: DocType, src: Source, reg: Registry,
                      load: string -> Result<JsVal>)
    requires name in st.cpus && Register(st, name, k, src, reg, load).1 == Pass
    ensures var s := Register(st, name, k, src, reg, load).0;
      var inc := SclIncludes.IncludeBatches(CutOf(src).blocks, load);
      var mid := st.cpus[name].symbols + IncludeLog(inc.added)
        + (BuiltinLog(reg, k) + [SymbolBatch(FromDocument, SymbolsOf(src.conf))]);
      var p := ParseSymbols(reg, k, mid, ListOf(src.conf), OptionsOf(src.conf));
      inc.failure.None? && p.failure.None?
      && s.cpus[name].symbols == mid + p.added
      && s.cpus[name].confs == st.cpus[name].confs[k := src.dumped]
      && AreasOf(s, k) == AreasOf(st, k) + [AreaFor(name, src, p.part)]
      && (forall k' :: k' != k ==> AreasOf(s, k') == AreasOf(st, k'))
  {
    var st1 := Stored(st, name, k, src.dumped);
    var inc := SclIncludes.IncludeBatches(CutOf(src).blocks, load);
    var st2 := WithLog(st1, name, IncludeLog(inc.added));
    var st3 := WithLog(st2, name, BuiltinLog(reg, k) + [SymbolBatch(FromDocument, SymbolsOf(src.conf))]);
    var p := ParseSymbols(reg, k, st3.cpus[name].symbols, ListOf(src.conf), OptionsOf(src.conf));
    var st4 := WithLog(st3, name, p.added);
    assert RegisterSymbols(st2, name, k, src, reg) == (Appended(st4, k, AreaFor(name, src, p.part)), Pass);
    assert Register(st, name, k, src, reg, load) == RegisterSymbols(st2, name, k, src, reg);
    assert AreasOf(st4, k) == AreasOf(st, k);
  }

  /** `add_conf` keeps the registry invariant, whatever it returns, provided
      `dump` gives a non-empty text (as it does for any document). */
  lemma AddConfPreservesValid(st: State, src: Source, reg: Registry, load: string -> Result<JsVal>)
    requires Valid(st) && src.dumped != ""
    ensures Valid(AddConfStep(st, src, reg, load).0)
  {
    match Validate(src.conf, reg)
    case Err(_) =>
    case Ok((name, k)) =>
      PreparePreservesValid(st, name, k, src.conf);
      var st2 := Prepare(st, name, k, src.conf);
      if !HasConf(st2.cpus[name], k) {
        RegisterPreservesValid(st2, name, k, src, reg, load);
      }
  }

  lemma RegisterPreservesValid(st: State, name: string, k: DocType, src: Source, reg: Registry,
                               load: string -> Result<JsVal>)
    requires Valid(st) && name in st.cpus && !HasConf(st.cpus[name], k) && src.dumped != ""
    ensures Valid(Register(st, name, k, src, reg, load).0)
  {
    var r := Register(st, name, k, src, reg, load).0;
    RegisterKeepsIndex(st, name, k, src, reg, load);
    forall k0 ensures AreasOk(r.cpus, k0, AreasOf(r, k0)) {
      RegisterAreasOk(st, name, k, src, reg, load, k0);
    }
  }

  /** Registering keeps the order list and every controller's own name. */
  lemma RegisterKeepsIndex(st: State, name: string, k: DocType, src: Source, reg: Registry,
                           load: string -> Result<JsVal>)
    requires Valid(st) && name in st.cpus
    ensures var r := Register(st, name, k, src, reg, load).0;
      Unique(r.order) && (forall n :: n in r.cpus <==> n in r.order)
      && (forall n :: n in r.cpus ==> r.cpus[n].name == n)
  {
  }

  /** No controller loses a stored configuration by registering. */
  lemma RegisterGrows(st: State, name: string, k: DocType, src: Source, reg: Registry,
                      load: string -> Result<JsVal>)
    requires name in st.cpus && src.dumped != ""
    ensures Grows(st.cpus, Register(st, name, k, src, reg, load).0.cpus)
  {
    var r := Register(st, name, k, src, reg, load).0;
    forall n, k0 | n in st.cpus && HasConf(st.cpus[n], k0)
      ensures n in r.cpus && HasConf(r.cpus[n], k0)
    {
      if n == name {
        assert r.cpus[name].confs == st.cpus[name].confs[k := src.dumped];
      }
    }
  }

  lemma RegisterAreasOk(st: State, name: string, k: DocType, src: Source, reg: Registry,
                        load: string -> Result<JsVal>, k0: DocType)
    requires Valid(st) && name in st.cpus && !HasConf(st.cpus[name], k) && src.dumped != ""
    ensures var r := Register(st, name, k, src, reg, load).0; AreasOk(r.cpus, k0, AreasOf(r, k0))
  {
    var (r, out) := Register(st, name, k, src, reg, load);
    RegisterGrows(st, name, k, src, reg, load);
    AreasOkGrow(st.cpus, r.cpus, k0, AreasOf(st, k0));
    if k0 == k && out.Pass? {
      RegisterAppendOk(st, name, k, src, reg, load);
    }
  }

  /** The appended area is the only one of its controller in its list. */
  lemma RegisterAppendOk(st: State, name: string, k: DocType, src: Source, reg: Registry,
                         load: string -> Result<JsVal>)
    requires Valid(st) && name in st.cpus && !HasConf(st.cpus[name], k) && src.dumped != ""
    requires Register(st, name, k, src, reg, load).1.Pass?
    ensures var r := Register(st, name, k, src, reg, load).0; AreasOk(r.cpus, k, AreasOf(r, k))
  {
    var r := Register(st, name, k, src, reg, load).0;
    var old_ := AreasOf(st, k);
    RegisterGrows(st, name, k, src, reg, load);
    AreasOkGrow(st.cpus, r.cpus, k, old_);
    forall i | 0 <= i < |old_| ensures old_[i].cpu != name {
      assert HasConf(st.cpus[old_[i].cpu], k);
    }
    assert HasConf(r.cpus[name], k);
    AreasOkAppend(r.cpus, k, old_, AreasOf(r, k)[|old_|]);
  }

  // ---------------------------------------------------------------------
  // The first pass

  /** `/.*ya?ml$/i`: the name ends in `yml` or `yaml`, in any case. */
  predicate IsConfFileName(f: string)
  {
    var l := Lower(f);
    (|l| >= 3 && l[|l| - 3..] == "yml") || (|l| >= 4 && l[|l| - 4..] == "yaml")
  }

  /** The uncommented dumps this program writes are themselves named like
      configuration files, and so are read again by a later run in the same
      folder. */
  lemma ZymlFilesAreScanned(name: string)
    ensures IsConfFileName(name + ".zyml")
  {
    var l := Lower(name + ".zyml");
    assert |l| == |name| + 5;
    assert l[|l| - 3..] == [LowerChar('y'), LowerChar('m'), LowerChar('l')];
  }

  lemma ConfFileNames()
    ensures IsConfFileName("plant.YAML") && IsConfFileName("x.yml") && !IsConfFileName("notes.json")
  {
    assert Lower("plant.YAML")[6..] == "yaml";
    assert Lower("x.yml")[2..] == "yml";
    assert Lower("notes.json")[7..] == "son";
    assert Lower("notes.json")[6..] == "json";
  }

  /** A file of the work folder: its name and its documents, `None` when
      `loadAll` rejects the text. */
  datatype ConfFile = ConfFile(name: string, docs: Option<seq<Source>>)

  /** How the first pass ended: all files read, an error thrown (caught by
      `gen_data`, which goes on with what it has), or `process.exit`. */
  datatype Stop = Completed | Thrown(error: Error) | Aborted(status: nat)

  function StopOf(e: Error): Stop
  {
    match ExitStatus(e)
    case Some(n) => Aborted(n)
    case None => Thrown(e)
  }

  /** `add_conf` on each document in turn, up to the first failure. */
  function RunDocs(st: State, docs: seq<Source>, reg: Registry, load: string -> Result<JsVal>): (State, Stop)
    decreases |docs|
  {
    if |docs| == 0 then (st, Completed)
    else
      var (s1, o) := AddConfStep(st, docs[0], reg, load);
      if o.Fail? then (s1, StopOf(o.error)) else RunDocs(s1, docs[1..], reg, load)
  }

  /** The first pass over the folder's files in `readdir` order. */
  function RunFiles(st: State, files: seq<ConfFile>, reg: Registry, load: string -> Result<JsVal>): (State, Stop)
    decreases |files|
  {
    if |files| == 0 then (st, Completed)
    else if !IsConfFileName(files[0].name) then RunFiles(st, files[1..], reg, load)
    else match files[0].docs
      case None => (st, Thrown(YamlSyntaxError))
      case Some(docs) =>
        var (s1, stop) := RunDocs(st, docs, reg, load);
        if stop.Completed? then RunFiles(s1, files[1..], reg, load) else (s1, stop)
  }

  predicate DumpsNonEmpty(docs: seq<Source>)
  {
    forall i :: 0 <= i < |docs| ==> docs[i].dumped != ""
  }

  predicate FilesDumpsNonEmpty(files: seq<ConfFile>)
  {
    forall i :: 0 <= i < |files| && files[i].docs.Some? ==> DumpsNonEmpty(files[i].docs.value)
  }

  lemma RunDocsUnfold(st: State, docs: seq<Source>, reg: Registry, load: string -> Result<JsVal>)
    requires |docs| > 0
    ensures var step := AddConfStep(st, docs[0], reg, load);
      RunDocs(st, docs, reg, load).0 == if step.1.Fail? then step.0 else RunDocs(step.0, docs[1..], reg, load).0
  {
  }

  lemma DumpsNonEmptyTail(docs: seq<Source>)
    requires |docs| > 0 && DumpsNonEmpty(docs)
    ensures docs[0].dumped != "" && DumpsNonEmpty(docs[1..])
  {
    assert forall i :: 0 <= i < |docs[1..]| ==> docs[1..][i] == docs[i + 1];
  }

  lemma {:induction false} RunDocsPreservesValid(st: State, docs: seq<Source>, reg: Registry,
                                                 load: string -> Result<JsVal>)
    requires Valid(st) && DumpsNonEmpty(docs)
    ensures Valid(RunDocs(st, docs, reg, load).0)
    decreases |docs|
  {
    if |docs| > 0 {
      DumpsNonEmptyTail(docs);
      AddConfPreservesValid(st, docs[0], reg, load);
      RunDocsUnfold(st, docs, reg, load);
      var step := AddConfStep(st, docs[0], reg, load);
      if !step.1.Fail? {
        RunDocsPreservesValid(step.0, docs[1..], reg, load);
      }
    }
  }

  /** Whatever stops it, the first pass leaves a consistent registry. */
  lemma {:induction false} RunFilesPreservesValid(st: State, files: seq<ConfFile>, reg: Registry,
                                                  load: string -> Result<JsVal>)
    requires Valid(st) && FilesDumpsNonEmpty(files)
    ensures Valid(RunFiles(st, files, reg, load).0)
    decreases |files|
  {
    if |files| > 0 {
      assert FilesDumpsNonEmpty(files[1..]) by {
        forall i | 0 <= i < |files[1..]| && files[1..][i].docs.Some?
          ensures DumpsNonEmpty(files[1..][i].docs.value)
        {
          assert files[1..][i] == files[i + 1];
        }
      }
      if !IsConfFileName(files[0].name) {
        RunFilesPreservesValid(st, files[1..], reg, load);
      } else if files[0].docs.Some? {
        RunDocsPreservesValid(st, files[0].docs.value, reg, load);
        var (s1, stop) := RunDocs(st, files[0].docs.value, reg, load);
        if stop.Completed? {
          RunFilesPreservesValid(s1, files[1..], reg, load);
        }
      }
    }
  }

  // ---------------------------------------------------------------------
  // The uncommented configuration

  /** One `.zyml` section: the stored text of kind `t`, or nothing. */
  function Section(c: Cpu, t: DocType): string
  {
    if HasConf(c, t) then "\n\n---\n" + c.confs[t] + "..." else ""
  }

  /** The sections of the kinds `ts`, in that order. */
  function Sections(c: Cpu, ts: seq<DocType>): string
  {
    if |ts| == 0 then "" else Section(c, ts[0]) + Sections(c, ts[1..])
  }

  /** `TYPES.reduce(...)`: a left fold from the accumulated text. */
  function Reduce(c: Cpu, ts: seq<DocType>, acc: string): string
    decreases |ts|
  {
    if |ts| == 0 then acc else Reduce(c, ts[1..], acc + Section(c, ts[0]))
  }

  function Header(name: string): string
  {
    "# CPU " + name + " configuration"
  }

  function Zyml(name: string, c: Cpu): string
  {
    Reduce(c, TYPES, Header(name))
  }

  lemma {:induction false} ReduceIsSections(c: Cpu, ts: seq<DocType>, acc: string)
    ensures Reduce(c, ts, acc) == acc + Sections(c, ts)
    decreases |ts|
  {
    if |ts| > 0 {
      ReduceIsSections(c, ts[1..], acc + Section(c, ts[0]));
      assert (acc + Section(c, ts[0])) + Sections(c, ts[1..]) == acc + (Section(c, ts[0]) + Sections(c, ts[1..]));
    }
  }

  /** The dump is the header followed by one section per stored kind in
      `TYPES` order; a controller with nothing stored gets the header only. */
  lemma ZymlShape(name: string, c: Cpu)
    ensures Zyml(name, c) == Header(name) + Sections(c, TYPES)
    ensures (forall t :: !HasConf(c, t)) ==> Zyml(name, c) == Header(name)
  {
    ReduceIsSections(c, TYPES, Header(name));
    if forall t :: !HasConf(c, t) {
      NoSections(c, TYPES);
    }
  }

  /** A controller with only a CPU document dumps one section. */
  lemma ZymlCpuOnly(name: string, c: Cpu)
    requires c.confs == map[CPU := "a: 1\n"]
    ensures Zyml(name, c) == Header(name) + "\n\n---\na: 1\n..."
  {
    ZymlShape(name, c);
    CpuOnlySections(c);
  }

  lemma CpuOnlySections(c: Cpu)
    requires c.confs == map[CPU := "a: 1\n"]
    ensures Sections(c, TYPES) == "\n\n---\na: 1\n..."
  {
    CpuOnlyRest(c);
    CpuOnlySection(c);
    assert Sections(c, TYPES) == Section(c, TYPES[0]) + Sections(c, TYPES[1..]);
  }

  lemma CpuOnlyRest(c: Cpu)
    requires c.confs == map[CPU := "a: 1\n"]
    ensures Sections(c, TYPES[1..]) == ""
  {
    var rest := TYPES[1..];
    assert forall i :: 0 <= i < |rest| ==> rest[i] != CPU;
    NoSections(c, rest);
  }

  lemma CpuOnlySection(c: Cpu)
    requires c.confs == map[CPU := "a: 1\n"]
    ensures Section(c, CPU) == "\n\n---\na: 1\n..."
  {
    assert Section(c, CPU) == "\n\n---\n" + "a: 1\n" + "...";
    CpuSectionText();
  }

  lemma CpuSectionText()
    ensures "\n\n---\n" + "a: 1\n" + "..." == "\n\n---\na: 1\n..."
  {
  }

  lemma {:induction false} NoSections(c: Cpu, ts: seq<DocType>)
    requires forall i :: 0 <= i < |ts| ==> !HasConf(c, ts[i])
    ensures Sections(c, ts) == ""
    decreases |ts|
  {
    if |ts| > 0 {
      NoSections(c, ts[1..]);
    }
  }

  // ---------------------------------------------------------------------
  // The second pass

  /** A step of the second pass: `build_symbols` of a controller, or the
      `build_<kind>` of one area. */
  datatype Event = BuildSymbols(cpu: string) | BuildArea(kind: DocType, cpu: string)

  /** `typeof converter['build_' + type] === 'function'` */
  predicate HasBuild(reg: Registry, k: DocType)
  {
    k == CPU || k == PI || reg.hasBuild(k)
  }

  function SymbolEvent(n: string): Event
  {
    BuildSymbols(n)
  }

  function AreaEvent(k: DocType): Area -> Event
  {
    (a: Area) => BuildArea(k, a.cpu)
  }

  /** The `build_<kind>` steps of the kinds `ks`, in that order. */
  function BuildEvents(st: State, reg: Registry, ks: seq<DocType>): (r: seq<Event>)
    ensures forall i :: 0 <= i < |r| ==> r[i].BuildArea? && r[i].kind in ks
  {
    if |ks| == 0 then []
    else
      var k := ks[|ks| - 1];
      BuildEvents(st, reg, ks[..|ks| - 1])
      + (if HasBuild(reg, k) then Map(AreaEvent(k), AreasOf(st, k)) else [])
  }

  /** The order of the second pass: `build_symbols` for every controller in
      creation order, then the areas' builds in `conf_list` key order. */
  function PassTwoEvents(st: State, reg: Registry): seq<Event>
  {
    Map(SymbolEvent, st.order) + BuildEvents(st, reg, CONF_ORDER)
  }

  /** The second pass starts with one `build_symbols` per controller in
      creation order, and every later step builds an area. */
  lemma SymbolsPrefix(st: State, reg: Registry)
    ensures var e := PassTwoEvents(st, reg);
      |st.order| <= |e|
      && (forall i :: 0 <= i < |st.order| ==> e[i] == BuildSymbols(st.order[i]))
      && (forall i :: |st.order| <= i < |e| ==> e[i].BuildArea?)
  {
    var syms := Map(SymbolEvent, st.order);
    var b := BuildEvents(st, reg, CONF_ORDER);
    assert PassTwoEvents(st, reg) == syms + b;
    assert forall i :: |syms| <= i < |syms + b| ==> (syms + b)[i] == b[i - |syms|];
  }

  /** Every controller's symbols are built once, and all before any area's
      `build`. */
  lemma SymbolsBuiltFirst(st: State, reg: Registry)
    requires Valid(st)
    ensures var e := PassTwoEvents(st, reg);
      (forall i, j :: 0 <= i < j < |e| && e[j].BuildSymbols? ==> e[i].BuildSymbols?)
      && (forall n :: BuildSymbols(n) in e <==> n in st.cpus)
      && (forall i, j :: 0 <= i < j < |e| && e[i].BuildSymbols? && e[j].BuildSymbols? ==> e[i].cpu != e[j].cpu)
  {
    SymbolsPrefix(st, reg);
    var e := PassTwoEvents(st, reg);
    forall n ensures BuildSymbols(n) in e <==> n in st.cpus {
      if BuildSymbols(n) in e {
        var i :| 0 <= i < |e| && e[i] == BuildSymbols(n);
        assert st.order[i] == n;
      }
      if n in st.cpus {
        var i :| 0 <= i < |st.order| && st.order[i] == n;
        assert e[i] == BuildSymbols(n);
      }
    }
  }

  /** The builds run kind by kind in `conf_list` order, and within a kind in
      the order the areas were registered. */
  lemma {:induction false} BuildEventsOrder(st: State, reg: Registry, ks: seq<DocType>, k: DocType)
    requires HasBuild(reg, k)
    ensures BuildEvents(st, reg, ks + [k]) == BuildEvents(st, reg, ks) + Map(AreaEvent(k), AreasOf(st, k))
  {
    assert (ks + [k])[..|ks|] == ks;
  }

  /** What `build` returns for PI modules that reached the second pass. */
  function ModuleJs(m: PiConverter.PiModule): JsVal
  {
    Obj([("DB", m.db), ("type", m.mtype), ("module_addr", m.moduleAddr), ("comment", m.comment),
         ("count_DB", m.countDb), ("module_no", m.moduleNo), ("channel_no", m.channelNo)])
  }

  /** `build_<kind>` on one area.  `resolve(cpu, module)` is the block number
      `build_symbols` gave the module's address symbol, `None` when
      `module_addr` is still a definition. */
  function BuildOne(cpus: map<string, Cpu>, k: DocType, a: Area,
                    resolve: (string, PiConverter.PiModule) -> Option<nat>): Result<(map<string, Cpu>, Area)>
  {
    match k
    case CPU =>
      if a.cpu in cpus then
        Ok((cpus[a.cpu := cpus[a.cpu].(outputDir := CpuConverter.BuildCpu(cpus[a.cpu].outputDir, a.options))], a))
      else Ok((cpus, a))
    case PI =>
      if a.part.PiPart? then
        var ms := a.part.modules;
        var b := PiConverter.BuildScan(ms, Map((m: PiConverter.PiModule) => resolve(a.cpu, m), ms));
        if b.1.Some? then Err(b.1.value) else Ok((cpus, a.(part := a.part.(modules := b.0))))
      else Ok((cpus, a))
    case _ => Ok((cpus, a))
  }

  /** `list.forEach(build)`: the areas of one kind, in order. */
  function BuildAreas(cpus: map<string, Cpu>, k: DocType, areas: seq<Area>,
                      resolve: (string, PiConverter.PiModule) -> Option<nat>): (r: Result<(map<string, Cpu>, seq<Area>)>)
    ensures r.Ok? ==> |r.value.1| == |areas| && SameCpus(cpus, r.value.0)
    ensures r.Ok? ==> forall i :: 0 <= i < |areas| ==> r.value.1[i].cpu == areas[i].cpu
  {
    if |areas| == 0 then Ok((cpus, []))
    else
      var p := BuildAreas(cpus, k, areas[..|areas| - 1], resolve);
      if p.Err? then Err(p.error)
      else
        var q := BuildOne(p.value.0, k, areas[|areas| - 1], resolve);
        if q.Err? then Err(q.error)
        else Ok((q.value.0, p.value.1 + [q.value.1]))
  }

  function BuildKind(st: State, k: DocType, resolve: (string, PiConverter.PiModule) -> Option<nat>): Result<State>
  {
    var r := BuildAreas(st.cpus, k, AreasOf(st, k), resolve);
    if r.Err? then Err(r.error)
    else if k in st.confList then Ok(st.(cpus := r.value.0, confList := st.confList[k := r.value.1]))
    else Ok(st.(cpus := r.value.0))
  }

  /** The `build_<kind>` steps of the kinds `ks`, in that order. */
  function BuildKinds(st: State, reg: Registry, ks: seq<DocType>,
                      resolve: (string, PiConverter.PiModule) -> Option<nat>): Result<State>
  {
    if |ks| == 0 then Ok(st)
    else
      var p := BuildKinds(st, reg, ks[..|ks| - 1], resolve);
      if p.Err? then p
      else if HasBuild(reg, ks[|ks| - 1]) then BuildKind(p.value, ks[|ks| - 1], resolve)
      else p
  }

  /** Building changes no controller's name, stored texts or symbols. */
  ghost predicate SameCpus(cpus: map<string, Cpu>, cpus': map<string, Cpu>)
  {
    cpus'.Keys == cpus.Keys
    && forall n :: n in cpus ==>
         cpus'[n].name == cpus[n].name && cpus'[n].confs == cpus[n].confs && cpus'[n].symbols == cpus[n].symbols
  }

  /** Building keeps the controllers, their order and which controller each
      area belongs to. */
  ghost predicate SameRegistry(st: State, st': State)
  {
    st'.order == st.order && SameCpus(st.cpus, st'.cpus)
    && forall k :: |AreasOf(st', k)| == |AreasOf(st, k)|
         && forall i :: 0 <= i < |AreasOf(st, k)| ==> AreasOf(st', k)[i].cpu == AreasOf(st, k)[i].cpu
  }

  lemma SameRegistryValid(st: State, st': State)
    requires Valid(st) && SameRegistry(st, st')
    ensures Valid(st')
  {
    forall k ensures AreasOk(st'.cpus, k, AreasOf(st', k)) {
      var a, a' := AreasOf(st, k), AreasOf(st', k);
      assert forall i :: 0 <= i < |a'| ==> a'[i].cpu == a[i].cpu;
    }
  }

  lemma {:induction false} BuildKindsKeepsRegistry(st: State, reg: Registry, ks: seq<DocType>,
                                                   resolve: (string, PiConverter.PiModule) -> Option<nat>)
    requires BuildKinds(st, reg, ks, resolve).Ok?
    ensures SameRegistry(st, BuildKinds(st, reg, ks, resolve).value)
  {
    if |ks| > 0 {
      BuildKindsKeepsRegistry(st, reg, ks[..|ks| - 1], resolve);
      var p := BuildKinds(st, reg, ks[..|ks| - 1], resolve).value;
      var k := ks[|ks| - 1];
      if HasBuild(reg, k) {
        var q := BuildKind(p, k, resolve).value;
        assert SameRegistry(p, q) by {
          forall k0 ensures AreasOf(q, k0) == AreasOf(p, k0) || k0 == k {}
        }
      }
    }
  }

  /** The second pass leaves a consistent registry. */
  lemma BuildKeepsValid(st: State, reg: Registry, resolve: (string, PiConverter.PiModule) -> Option<nat>)
    requires Valid(st) && BuildKinds(st, reg, CONF_ORDER, resolve).Ok?
    ensures Valid(BuildKinds(st, reg, CONF_ORDER, resolve).value)
  {
    BuildKindsKeepsRegistry(st, reg, CONF_ORDER, resolve);
    SameRegistryValid(st, BuildKinds(st, reg, CONF_ORDER, resolve).value);
  }

  /** Every module of the PI area `a` has its address resolved. */
  ghost predicate Resolved(a: Area, resolve: (string, PiConverter.PiModule) -> Option<nat>)
  {
    a.part.PiPart? ==> forall j :: 0 <= j < |a.part.modules| ==> resolve(a.cpu, a.part.modules[j]).Some?
  }

  /** The PI build of one area fails exactly when one of its modules is
      unresolved, and then with that error; it changes no controller. */
  lemma PiBuildOne(cpus: map<string, Cpu>, a: Area, resolve: (string, PiConverter.PiModule) -> Option<nat>)
    ensures var q := BuildOne(cpus, PI, a, resolve);
      (q.Ok? <==> Resolved(a, resolve)) && (q.Err? ==> q.error == ModuleAddrUnresolved)
  {
    if a.part.PiPart? {
      var ms := a.part.modules;
      var bs := Map((m: PiConverter.PiModule) => resolve(a.cpu, m), ms);
      PiConverter.BuildScanSpec(ms, bs);
      assert Resolved(a, resolve) <==> forall j :: 0 <= j < |bs| ==> bs[j].Some?;
    }
  }

  /** The PI build fails exactly when some module of some area still has an
      unresolved address, and then with that error. */
  lemma PiBuildFailsIffUnresolved(cpus: map<string, Cpu>, areas: seq<Area>,
                                  resolve: (string, PiConverter.PiModule) -> Option<nat>)
    ensures var r := BuildAreas(cpus, PI, areas, resolve);
      (r.Ok? <==> forall i :: 0 <= i < |areas| ==> Resolved(areas[i], resolve))
      && (r.Err? ==> r.error == ModuleAddrUnresolved)
  {
    PiBuildOkIffResolved(cpus, areas, resolve);
    PiBuildError(cpus, areas, resolve);
  }

  lemma {:induction false} PiBuildOkIffResolved(cpus: map<string, Cpu>, areas: seq<Area>,
                                                resolve: (string, PiConverter.PiModule) -> Option<nat>)
    ensures BuildAreas(cpus, PI, areas, resolve).Ok? <==> forall i :: 0 <= i < |areas| ==> Resolved(areas[i], resolve)
  {
    if |areas| > 0 {
      var init := areas[..|areas| - 1];
      PiBuildOkIffResolved(cpus, init, resolve);
      PiBuildSnoc(cpus, areas, resolve);
      ResolvedSnoc(areas, resolve);
    }
  }

  /** The PI build of one more area succeeds exactly when the build of the
      others does and the new area is resolved. */
  lemma PiBuildSnoc(cpus: map<string, Cpu>, areas: seq<Area>,
                    resolve: (string, PiConverter.PiModule) -> Option<nat>)
    requires |areas| > 0
    ensures var p := BuildAreas(cpus, PI, areas[..|areas| - 1], resolve);
      BuildAreas(cpus, PI, areas, resolve).Ok? <==> p.Ok? && Resolved(areas[|areas| - 1], resolve)
  {
    var p := BuildAreas(cpus, PI, areas[..|areas| - 1], resolve);
    if p.Ok? {
      PiBuildOne(p.value.0, areas[|areas| - 1], resolve);
    }
  }

  lemma ResolvedSnoc(areas: seq<Area>, resolve: (string, PiConverter.PiModule) -> Option<nat>)
    requires |areas| > 0
    ensures var init := areas[..|areas| - 1];
      (forall i :: 0 <= i < |areas| ==> Resolved(areas[i], resolve)) <==>
      (forall i :: 0 <= i < |init| ==> Resolved(init[i], resolve)) && Resolved(areas[|areas| - 1], resolve)
  {
    var init := areas[..|areas| - 1];
    assert forall i :: 0 <= i < |init| ==> Resolved(init[i], resolve) == Resolved(areas[i], resolve);
  }

  lemma {:induction false} PiBuildError(cpus: map<string, Cpu>, areas: seq<Area>,
                                        resolve: (string, PiConverter.PiModule) -> Option<nat>)
    ensures BuildAreas(cpus, PI, areas, resolve).Err? ==> BuildAreas(cpus, PI, areas, resolve).error == ModuleAddrUnresolved
  {
    if |areas| > 0 {
      var init := areas[..|areas| - 1];
      PiBuildError(cpus, init, resolve);
      var p := BuildAreas(cpus, PI, init, resolve);
      if p.Ok? {
        PiBuildOne(p.value.0, areas[|areas| - 1], resolve);
      }
    }
  }

  /** The CPU build of one more area updates only that area's controller. */
  lemma CpuBuildSnoc(cpus: map<string, Cpu>, areas: seq<Area>, resolve: (string, PiConverter.PiModule) -> Option<nat>)
    requires |areas| > 0
    ensures var p := BuildAreas(cpus, CPU, areas[..|areas| - 1], resolve);
      var a := areas[|areas| - 1];
      p.Ok? ==> (BuildAreas(cpus, CPU, areas, resolve).Ok?
        && BuildAreas(cpus, CPU, areas, resolve).value.0 ==
             if a.cpu in p.value.0
             then p.value.0[a.cpu := p.value.0[a.cpu].(outputDir := CpuConverter.BuildCpu(p.value.0[a.cpu].outputDir, a.options))]
             else p.value.0)
  {
  }

  /** The CPU build never fails. */
  lemma {:induction false} CpuBuildOk(cpus: map<string, Cpu>, areas: seq<Area>,
                                      resolve: (string, PiConverter.PiModule) -> Option<nat>)
    ensures BuildAreas(cpus, CPU, areas, resolve).Ok?
  {
    if |areas| > 0 {
      CpuBuildOk(cpus, areas[..|areas| - 1], resolve);
      CpuBuildSnoc(cpus, areas, resolve);
    }
  }

  /** A controller no CPU area names keeps its record. */
  lemma {:induction false} CpuBuildKeepsOthers(cpus: map<string, Cpu>, areas: seq<Area>,
                                               resolve: (string, PiConverter.PiModule) -> Option<nat>, n: string)
    requires n in cpus && forall i :: 0 <= i < |areas| ==> areas[i].cpu != n
    ensures var r := BuildAreas(cpus, CPU, areas, resolve);
      r.Ok? && n in r.value.0 && r.value.0[n] == cpus[n]
  {
    if |areas| > 0 {
      var init := areas[..|areas| - 1];
      assert forall i :: 0 <= i < |init| ==> init[i] == areas[i];
      CpuBuildKeepsOthers(cpus, init, resolve, n);
      CpuBuildSnoc(cpus, areas, resolve);
    }
  }

  /** Each CPU area sets its own controller's output folder from its options. */
  lemma {:induction false} CpuBuildSetsDirs(cpus: map<string, Cpu>, areas: seq<Area>,
                                            resolve: (string, PiConverter.PiModule) -> Option<nat>)
    requires forall i :: 0 <= i < |areas| ==> areas[i].cpu in cpus
    requires forall i, j :: 0 <= i < j < |areas| ==> areas[i].cpu != areas[j].cpu
    ensures var r := BuildAreas(cpus, CPU, areas, resolve);
      r.Ok? && forall i :: 0 <= i < |areas| ==>
        r.value.0[areas[i].cpu].outputDir == CpuConverter.BuildCpu(cpus[areas[i].cpu].outputDir, areas[i].options)
  {
    if |areas| > 0 {
      var init := areas[..|areas| - 1];
      var a := areas[|areas| - 1];
      assert forall i :: 0 <= i < |init| ==> init[i] == areas[i];
      CpuBuildSetsDirs(cpus, init, resolve);
      CpuBuildKeepsOthers(cpus, init, resolve, a.cpu);
      CpuBuildSnoc(cpus, areas, resolve);
      var p := BuildAreas(cpus, CPU, init, resolve).value.0;
      var c := BuildAreas(cpus, CPU, areas, resolve).value.0;
      forall i | 0 <= i < |areas|
        ensures c[areas[i].cpu].outputDir == CpuConverter.BuildCpu(cpus[areas[i].cpu].outputDir, areas[i].options)
      {
        if i < |init| {
          assert areas[i].cpu != a.cpu;
          assert c[areas[i].cpu] == p[init[i].cpu];
        }
      }
    }
  }

  /** Each CPU area sets its own controller's output folder from its options;
      controllers without a CPU area keep theirs. */
  lemma CpuBuildSetsOutputDirs(cpus: map<string, Cpu>, areas: seq<Area>,
                               resolve: (string, PiConverter.PiModule) -> Option<nat>)
    requires forall i :: 0 <= i < |areas| ==> areas[i].cpu in cpus
    requires forall i, j :: 0 <= i < j < |areas| ==> areas[i].cpu != areas[j].cpu
    ensures var r := BuildAreas(cpus, CPU, areas, resolve);
      r.Ok?
      && (forall i :: 0 <= i < |areas| ==>
            r.value.0[areas[i].cpu].outputDir == CpuConverter.BuildCpu(cpus[areas[i].cpu].outputDir, areas[i].options))
      && (forall n :: n in cpus && (forall i :: 0 <= i < |areas| ==> areas[i].cpu != n) ==> r.value.0[n] == cpus[n])
  {
    CpuBuildSetsDirs(cpus, areas, resolve);
    forall n | n in cpus && (forall i :: 0 <= i < |areas| ==> areas[i].cpu != n)
      ensures BuildAreas(cpus, CPU, areas, resolve).value.0[n] == cpus[n]
    {
      CpuBuildKeepsOthers(cpus, areas, resolve, n);
    }
  }

  lemma BuildAreasSnoc(cpus: map<string, Cpu>, k: DocType, areas: seq<Area>, j: nat,
                       resolve: (string, PiConverter.PiModule) -> Option<nat>, c: map<string, Cpu>, done: seq<Area>)
    requires j < |areas| && BuildAreas(cpus, k, areas[..j], resolve) == Ok((c, done))
    requires BuildOne(c, k, areas[j], resolve).Ok?
    ensures BuildAreas(cpus, k, areas[..j + 1], resolve)
      == Ok((BuildOne(c, k, areas[j], resolve).value.0, done + [BuildOne(c, k, areas[j], resolve).value.1]))
  {
    assert areas[..j + 1][..j] == areas[..j];
  }

  lemma {:induction false} BuildAreasStops(cpus: map<string, Cpu>, k: DocType, areas: seq<Area>, n: nat,
                                           resolve: (string, PiConverter.PiModule) -> Option<nat>)
    requires n <= |areas| && BuildAreas(cpus, k, areas[..n], resolve).Err?
    ensures BuildAreas(cpus, k, areas, resolve) == BuildAreas(cpus, k, areas[..n], resolve)
    decreases |areas| - n
  {
    if n < |areas| {
      BuildAreasErrSnoc(cpus, k, areas, n, resolve);
      BuildAreasStops(cpus, k, areas, n + 1, resolve);
    } else {
      assert areas[..n] == areas;
    }
  }

  /** A failed build stays failed when one more area follows. */
  lemma BuildAreasErrSnoc(cpus: map<string, Cpu>, k: DocType, areas: seq<Area>, n: nat,
                          resolve: (string, PiConverter.PiModule) -> Option<nat>)
    requires n < |areas| && BuildAreas(cpus, k, areas[..n], resolve).Err?
    ensures BuildAreas(cpus, k, areas[..n + 1], resolve) == BuildAreas(cpus, k, areas[..n], resolve)
  {
    assert areas[..n + 1][..n] == areas[..n];
  }

  /** The area at `j` failing to build makes the whole build fail with its error. */
  lemma BuildAreasFailsAt(cpus: map<string, Cpu>, k: DocType, areas: seq<Area>, j: nat,
                          resolve: (string, PiConverter.PiModule) -> Option<nat>, c: map<string, Cpu>, done: seq<Area>)
    requires j < |areas| && BuildAreas(cpus, k, areas[..j], resolve) == Ok((c, done))
    requires BuildOne(c, k, areas[j], resolve).Err?
    ensures BuildAreas(cpus, k, areas, resolve) == Err(BuildOne(c, k, areas[j], resolve).error)
  {
    assert areas[..j + 1][..j] == areas[..j];
    BuildAreasStops(cpus, k, areas, j + 1, resolve);
  }

  /** One more kind: its build (if it has one) follows the earlier kinds'. */
  lemma BuildKindsSnoc(st: State, reg: Registry, ks: seq<DocType>, i: nat,
                       resolve: (string, PiConverter.PiModule) -> Option<nat>, cur: State)
    requires i < |ks| && BuildKinds(st, reg, ks[..i], resolve) == Ok(cur)
    ensures BuildKinds(st, reg, ks[..i + 1], resolve)
      == if HasBuild(reg, ks[i]) then BuildKind(cur, ks[i], resolve) else Ok(cur)
    ensures BuildEvents(st, reg, ks[..i + 1])
      == BuildEvents(st, reg, ks[..i]) + (if HasBuild(reg, ks[i]) then Map(AreaEvent(ks[i]), AreasOf(st, ks[i])) else [])
  {
    assert ks[..i + 1][..i] == ks[..i];
  }

  lemma {:induction false} BuildKindsStops(st: State, reg: Registry, ks: seq<DocType>, n: nat,
                                           resolve: (string, PiConverter.PiModule) -> Option<nat>)
    requires n <= |ks| && BuildKinds(st, reg, ks[..n], resolve).Err?
    ensures BuildKinds(st, reg, ks, resolve) == BuildKinds(st, reg, ks[..n], resolve)
    decreases |ks| - n
  {
    if n < |ks| {
      assert ks[..n + 1][..n] == ks[..n];
      BuildKindsStops(st, reg, ks, n + 1, resolve);
    } else {
      assert ks[..n] == ks;
    }
  }

  /** The events of a kind's builds depend only on which controllers its
      areas belong to. */
  lemma AreaEventsKept(st: State, st': State, k: DocType)
    requires SameRegistry(st, st')
    ensures Map(AreaEvent(k), AreasOf(st', k)) == Map(AreaEvent(k), AreasOf(st, k))
  {
  }

  // ---------------------------------------------------------------------
  // Generation

  /** What `gen_data` returns: `[[], []]` under `noconvert`, otherwise the
      rules of the CPU and PI converters. */
  datatype Output = NoConvert | Convert(cpuRules: seq<Rule>, symbolRules: seq<Rule>, piRules: seq<Rule>)

  /** How `gen_data` ends: `process.exit(status)`, an error thrown by the
      second pass, or its result. */
  datatype RunResult = Exit(status: nat) | Crash(error: Error) | Finished(output: Output)

  /** The rules of the third pass over a registry: the CPU rules of the CPU
      areas with includes, the symbol-table rules of those with symbols, and
      one PI rule per PI area. */
  function Generated(st: State, symbolList: string -> seq<string>): Output
  {
    Convert(
      Map(CpuConverter.CpuRule, Filter(CpuConverter.HasIncludes, Map(CpuGenAreaOf(st, symbolList), AreasOf(st, CPU)))),
      Map(CpuConverter.SymbolsRule, Filter(CpuConverter.HasSymbols, Map(CpuGenAreaOf(st, symbolList), AreasOf(st, CPU)))),
      Map(PiConverter.PiRule, Map(PiGenAreaOf(st), AreasOf(st, PI))))
  }

  function OutputDirOf(st: State, name: string): JsVal
  {
    if name in st.cpus then st.cpus[name].outputDir else Str(name)
  }

  /** What `gen_CPU` reads of a CPU area; `symbolList(cpu)` is the printed
      symbol table of the controller. */
  function CpuGenAreaOf(st: State, symbolList: string -> seq<string>): Area -> CpuConverter.CpuGenArea
  {
    (a: Area) => CpuConverter.CpuGenArea(a.cpu, OutputDirOf(st, a.cpu), a.includes, a.options, symbolList(a.cpu))
  }

  function PiGenAreaOf(st: State): Area -> PiConverter.PiGenArea
  {
    (a: Area) => PiConverter.PiGenArea(a.cpu, OutputDirOf(st, a.cpu), a.includes, a.loopCode,
                                       if a.part.PiPart? then Arr(Map(ModuleJs, a.part.modules)) else a.list,
                                       a.options)
  }

  /** The `.zyml` files: one per controller, in creation order. */
  function ZymlFiles(cpus: map<string, Cpu>, names: seq<string>): (r: seq<(string, string)>)
    requires forall i :: 0 <= i < |names| ==> names[i] in cpus
    ensures |r| == |names|
    ensures forall i :: 0 <= i < |names| ==> r[i] == (names[i] + ".zyml", Zyml(names[i], cpus[names[i]]))
  {
    if |names| == 0 then []
    else ZymlFiles(cpus, names[..|names| - 1]) + [(names[|names| - 1] + ".zyml", Zyml(names[|names| - 1], cpus[names[|names| - 1]]))]
  }

  /** The controllers, their documents and the areas, updated in place. */
  class Compilation {
    var cpus: map<string, Cpu>
    var order: seq<string>
    var confList: map<DocType, seq<Area>>

    function Snapshot(): State
      reads this
    {
      State(cpus, order, confList)
    }

    constructor ()
      ensures Snapshot() == INITIAL
    {
      cpus, order, confList := map[], [], map[];
    }

    /** `get_cpu` */
    method GetCpu(name: string) returns (c: Cpu)
      modifies this
      ensures Snapshot() == GetCpuState(old(Snapshot()), name)
      ensures name in cpus && c == cpus[name]
    {
      if name !in cpus {
        cpus := cpus[name := NewCpu(name)];
        order := order + [name];
      }
      c := cpus[name];
    }

    /** `push_conf` */
    method PushConf(name: string, k: DocType, text: string)
      requires name in cpus
      modifies this
      ensures Snapshot() == Stored(old(Snapshot()), name, k, text)
    {
      var c := cpus[name];
      cpus := cpus[name := c.(confs := c.confs[k := text])];
    }

    /** `add_symbols(symbols_dict, ...)`, once per batch. */
    method AddSymbols(name: string, batches: seq<SymbolBatch>)
      requires name in cpus
      modifies this
      ensures Snapshot() == WithLog(old(Snapshot()), name, batches)
    {
      var c := cpus[name];
      cpus := cpus[name := c.(symbols := c.symbols + batches)];
    }

    /** `add_conf` */
    method AddConf(src: Source, reg: Registry, load: string -> Result<JsVal>) returns (r: Outcome)
      modifies this
      ensures (Snapshot(), r) == AddConfStep(old(Snapshot()), src, reg, load)
    {
      var v := Validate(src.conf, reg);
      if v.Err? {
        return Fail(v.error);
      }
      var (name, k) := v.value;
      var c := GetCpu(name);
      if k == CPU {
        c := c.(device := Get(src.conf, "device"));
        cpus := cpus[name := c];
      }
      assert Snapshot() == Prepare(old(Snapshot()), name, k, src.conf);
      if HasConf(c, k) {
        return Fail(DuplicateConfiguration);
      }
      r := RegisterConf(name, k, src, reg, load);
    }

    /** The part of `add_conf` after the duplicate check. */
    method RegisterConf(name: string, k: DocType, src: Source, reg: Registry, load: string -> Result<JsVal>)
      returns (r: Outcome)
      requires name in cpus
      modifies this
      ensures (Snapshot(), r) == Register(old(Snapshot()), name, k, src, reg, load)
    {
      ghost var st0 := Snapshot();
      PushConf(name, k, src.dumped);
      ghost var st1 := Snapshot();
      var inc := SclIncludes.IncludeBatches(CutOf(src).blocks, load);
      AddSymbols(name, IncludeLog(inc.added));
      ghost var st2 := Snapshot();
      assert st2 == WithLog(Stored(st0, name, k, src.dumped), name, IncludeLog(inc.added));
      if inc.failure.Some? {
        return Fail(inc.failure.value);
      }
      r := RegisterOwnSymbols(name, k, src, reg);
    }

    /** The rest of `add_conf` once the includes are in. */
    method RegisterOwnSymbols(name: string, k: DocType, src: Source, reg: Registry) returns (r: Outcome)
      requires name in cpus
      modifies this
      ensures (Snapshot(), r) == RegisterSymbols(old(Snapshot()), name, k, src, reg)
    {
      AddSymbols(name, BuiltinLog(reg, k) + [SymbolBatch(FromDocument, SymbolsOf(src.conf))]);
      var p := ParseSymbols(reg, k, cpus[name].symbols, ListOf(src.conf), OptionsOf(src.conf));
      AddSymbols(name, p.added);
      ghost var st4 := Snapshot();
      if p.failure.Some? {
        return Fail(p.failure.value);
      }
      confList := confList[k := AreasOf(Snapshot(), k) + [AreaFor(name, src, p.part)]];
      assert Snapshot() == Appended(st4, k, AreaFor(name, src, p.part));
      return Pass;
    }

    /** The first pass of `gen_data`: every document of every configuration
        file, until the first error. */
    method PassOne(files: seq<ConfFile>, reg: Registry, load: string -> Result<JsVal>) returns (stop: Stop)
      modifies this
      ensures (Snapshot(), stop) == RunFiles(old(Snapshot()), files, reg, load)
    {
      var i := 0;
      while i < |files|
        invariant 0 <= i <= |files|
        invariant RunFiles(Snapshot(), files[i..], reg, load) == RunFiles(old(Snapshot()), files, reg, load)
      {
        assert files[i..][1..] == files[i + 1..];
        var f := files[i];
        if IsConfFileName(f.name) {
          if f.docs.None? {
            return Thrown(YamlSyntaxError);
          }
          var docs := f.docs.value;
          ghost var atFile := Snapshot();
          var j := 0;
          while j < |docs|
            invariant 0 <= j <= |docs|
            invariant RunDocs(Snapshot(), docs[j..], reg, load) == RunDocs(atFile, docs, reg, load)
          {
            assert docs[j..][1..] == docs[j + 1..];
            var o := AddConf(docs[j], reg, load);
            if o.Fail? {
              return StopOf(o.error);
            }
            j := j + 1;
          }
          assert docs[j..] == [];
        }
        i := i + 1;
      }
      assert files[i..] == [];
      return Completed;
    }

    /** The `output_zyml` loop: the name and text of each `.zyml` file. */
    method ZymlOutputs() returns (out: seq<(string, string)>)
      requires forall i :: 0 <= i < |order| ==> order[i] in cpus
      ensures out == ZymlFiles(cpus, order)
    {
      out := [];
      for i := 0 to |order|
        invariant out == ZymlFiles(cpus, order[..i])
      {
        assert order[..i + 1][..i] == order[..i];
        out := out + [(order[i] + ".zyml", Zyml(order[i], cpus[order[i]]))];
      }
      assert order[..|order|] == order;
    }

    /** `list.forEach(build_<k>)` for the areas of kind `k`. */
    method BuildKindStep(k: DocType, resolve: (string, PiConverter.PiModule) -> Option<nat>) returns (r: Outcome)
      modifies this
      ensures var b := BuildKind(old(Snapshot()), k, resolve);
        (r.Pass? <==> b.Ok?) && (b.Err? ==> r == Fail(b.error)) && (b.Ok? ==> Snapshot() == b.value)
    {
      var built := BuildAreasLoop(k, AreasOf(Snapshot(), k), resolve);
      if built.Err? {
        return Fail(built.error);
      }
      if k in confList {
        confList := confList[k := built.value];
      }
      return Pass;
    }

    /** The loop of `list.forEach(build_<k>)`: builds `areas` in order and
        leaves what they made of the controllers in `cpus`. */
    method BuildAreasLoop(k: DocType, areas: seq<Area>, resolve: (string, PiConverter.PiModule) -> Option<nat>)
      returns (r: Result<seq<Area>>)
      modifies this
      ensures var b := BuildAreas(old(cpus), k, areas, resolve);
        (r.Ok? <==> b.Ok?) && (b.Err? ==> r == Err(b.error))
        && (b.Ok? ==> cpus == b.value.0 && r.value == b.value.1)
      ensures order == old(order) && confList == old(confList)
    {
      ghost var c0 := cpus;
      var done: seq<Area> := [];
      var j := 0;
      while j < |areas|
        invariant 0 <= j <= |areas|
        invariant BuildAreas(c0, k, areas[..j], resolve) == Ok((cpus, done))
        invariant order == old(order) && confList == old(confList)
      {
        var q := BuildOne(cpus, k, areas[j], resolve);
        if q.Err? {
          BuildAreasFailsAt(c0, k, areas, j, resolve, cpus, done);
          return Err(q.error);
        }
        BuildAreasSnoc(c0, k, areas, j, resolve, cpus, done);
        cpus := q.value.0;
        done := done + [q.value.1];
        j := j + 1;
      }
      assert areas[..j] == areas;
      return Ok(done);
    }

    /** `build_symbols` for every controller, in creation order. */
    method SymbolPhase() returns (events: seq<Event>)
      ensures events == Map(SymbolEvent, order)
    {
      events := [];
      for i := 0 to |order|
        invariant events == Map(SymbolEvent, order[..i])
      {
        MapSnoc(SymbolEvent, order, i);
        events := events + [SymbolEvent(order[i])];
      }
      assert order[..|order|] == order;
    }

    /** `build_<kind>` for every area, kind by kind in `conf_list` order. */
    method BuildPhase(reg: Registry, resolve: (string, PiConverter.PiModule) -> Option<nat>)
      returns (r: Outcome, events: seq<Event>)
      modifies this
      ensures var b := BuildKinds(old(Snapshot()), reg, CONF_ORDER, resolve);
        (r.Pass? <==> b.Ok?) && (b.Err? ==> r == Fail(b.error))
        && (b.Ok? ==> Snapshot() == b.value && events == BuildEvents(old(Snapshot()), reg, CONF_ORDER))
    {
      ghost var st0 := Snapshot();
      events := [];
      var ki := 0;
      while ki < |CONF_ORDER|
        invariant 0 <= ki <= |CONF_ORDER|
        invariant BuildKinds(st0, reg, CONF_ORDER[..ki], resolve) == Ok(Snapshot())
        invariant SameRegistry(st0, Snapshot())
        invariant events == BuildEvents(st0, reg, CONF_ORDER[..ki])
      {
        var k := CONF_ORDER[ki];
        BuildKindsSnoc(st0, reg, CONF_ORDER, ki, resolve, Snapshot());
        if HasBuild(reg, k) {
          var before := Snapshot();
          AreaEventsKept(st0, before, k);
          var step := BuildKindStep(k, resolve);
          if step.Fail? {
            BuildKindsStops(st0, reg, CONF_ORDER, ki + 1, resolve);
            return step, events;
          }
          BuildKindsKeepsRegistry(st0, reg, CONF_ORDER[..ki + 1], resolve);
          events := events + Map(AreaEvent(k), AreasOf(before, k));
        }
        ki := ki + 1;
      }
      assert CONF_ORDER[..ki] == CONF_ORDER;
      r := Pass;
    }

    /** The second pass of `gen_data`: `build_symbols` for every controller,
        then `build_<kind>` for every area in `conf_list` order.  `events`
        records the steps in the order they ran. */
    method PassTwo(reg: Registry, resolve: (string, PiConverter.PiModule) -> Option<nat>)
      returns (r: Outcome, events: seq<Event>)
      modifies this
      ensures var b := BuildKinds(old(Snapshot()), reg, CONF_ORDER, resolve);
        (r.Pass? <==> b.Ok?) && (b.Err? ==> r == Fail(b.error))
        && (b.Ok? ==> Snapshot() == b.value && events == PassTwoEvents(old(Snapshot()), reg))
        && (b.Ok? && Valid(old(Snapshot())) ==> Valid(Snapshot()))
    {
      var symbolEvents := SymbolPhase();
      var buildEvents;
      r, buildEvents := BuildPhase(reg, resolve);
      events := symbolEvents + buildEvents;
      if r.Pass? && Valid(old(Snapshot())) {
        BuildKeepsValid(old(Snapshot()), reg, resolve);
      }
    }

    /** The third pass: the CPU and PI rules (the other converters' rules and
        every copy list are outside this model). */
    method Generate(symbolList: string -> seq<string>) returns (out: Output)
      ensures out == Generated(Snapshot(), symbolList)
      ensures out.Convert? && |out.piRules| == |AreasOf(Snapshot(), PI)|
    {
      var cpuRules, symbolRules := CpuConverter.GenCpu(Map(CpuGenAreaOf(Snapshot(), symbolList), AreasOf(Snapshot(), CPU)));
      var piRules := PiConverter.Gen(Map(PiGenAreaOf(Snapshot()), AreasOf(Snapshot(), PI)));
      out := Convert(cpuRules, symbolRules, piRules);
    }

    /** `gen_data({ output_zyml, noconvert })`.  An error thrown in the first
        pass ends that pass only; `process.exit` ends everything; an error of
        the second pass escapes. */
    method Run(files: seq<ConfFile>, reg: Registry, load: string -> Result<JsVal>,
               resolve: (string, PiConverter.PiModule) -> Option<nat>, symbolList: string -> seq<string>,
               outputZyml: bool, noconvert: bool) returns (r: RunResult, zyml: seq<(string, string)>)
      requires Valid(Snapshot()) && FilesDumpsNonEmpty(files)
      modifies this
      ensures var (s1, stop) := RunFiles(old(Snapshot()), files, reg, load);
        Valid(s1)
        && (stop.Aborted? ==> r == Exit(stop.status) && zyml == [])
        && (!stop.Aborted? ==> zyml == (if outputZyml then ZymlFiles(s1.cpus, s1.order) else []))
        && (!stop.Aborted? && BuildKinds(s1, reg, CONF_ORDER, resolve).Err? ==>
              r == Crash(BuildKinds(s1, reg, CONF_ORDER, resolve).error))
        && (!stop.Aborted? && BuildKinds(s1, reg, CONF_ORDER, resolve).Ok? && noconvert ==>
              r == Finished(NoConvert))
        && (!stop.Aborted? && BuildKinds(s1, reg, CONF_ORDER, resolve).Ok? ==>
              Snapshot() == BuildKinds(s1, reg, CONF_ORDER, resolve).value && Valid(Snapshot()))
        && (!stop.Aborted? && BuildKinds(s1, reg, CONF_ORDER, resolve).Ok? && !noconvert ==>
              r == Finished(Generated(BuildKinds(s1, reg, CONF_ORDER, resolve).value, symbolList)))
    {
      RunFilesPreservesValid(Snapshot(), files, reg, load);
      var stop := PassOne(files, reg, load);
      zyml := [];
      if stop.Aborted? {
        return Exit(stop.status), zyml;
      }
      if outputZyml {
        zyml := ZymlOutputs();
      }
      var b, events := PassTwo(reg, resolve);
      if b.Fail? {
        return Crash(b.error), zyml;
      }
      if noconvert {
        return Finished(NoConvert), zyml;
      }
      var out := Generate(symbolList);
      return Finished(out), zyml;
    }
  }
}

# S7 SCL source generator: a verified model of its core

The generator reads YAML configuration documents, one per controller and
kind (CPU, PI, interlock and so on). From them it produces Siemens S7 SCL
sources and symbol tables. This project models the parts of that program
that decide what is generated. Each part is written in Dafny, and properties
of each part are proved.

- **The compilation driver** (`GenData`, gen_data.dfy):
  - the controller registry, where `get_cpu` creates a record on first use;
  - `push_conf`;
  - `add_conf`:
    - validation;
    - classification against `TYPES`;
    - the duplicate check;
    - the order in which symbols are registered;
  - the uncommented `.zyml` dump;
  - the order of the passes: every `build_symbols` step runs before any `build_<kind>` step;
  - the `noconvert` switch.

  A `Compilation` class holds the controller map and `conf_list`, and its methods update them in place.
- **The scan of `(* symbols: ... *)` blocks** in the `includes` text (`SclIncludes`, scl_includes.dfy). This is `parse_symbols_in_SCL`.
- **The CPU converter** (`CpuConverter`, cpu.dfy):
  - the clock-memory built-ins, and their relocation when the configuration moves the clock-memory byte;
  - the `output_dir` option;
  - the selection of CPU and symbol-table rules.
- **The PI converter** (`PiConverter`, pi.dfy):
  - the FM350-2 modules, and their numbered `module_addr` symbols;
  - the module and channel numbers;
  - one rule per PI document.

  The `PiArea` class changes the module list in place.
- **The interlock converter**, in two passes:
  - Pass 1 (`InterlockConverter`, interlock.dfy) covers:
    - the per-DB field namespace: a reserved `enable` entry and automatic names `b_1, b_2, ...`;
    - the find-or-create DB set;
    - the classification of `enable`/`$enable`, `data`, `input`, `reset` and `output` items.

    Its class `InterlockArea` grows the DB set and each DB's namespace in place.
  - Pass 2 (`InterlockBuild`, interlock_build.dfy) covers `build_list`:
    - the DB comment;
    - the declarations and the read/write assignment lists;
    - the trigger expression for each trigger type;
    - edge followers and resettable flags.

Shared definitions live in two modules:
- `Js` (js.dfy) models JavaScript values, `undefined`/`null`/truthiness, the string conversions the code relies on, and the result types.
- `Seqs` (seqs.dfy) defines `filter` and `map` and the sub-sequence relation.

## How the model is built

**Values and the code the model cannot see.**
- Configuration nodes are values of the datatype `Js.JsVal`. YAML parsing is not modelled.
- Several helpers live in src/symbols.js, src/s7data.js and src/util.js, which are not part of this model: `add_symbols`, `make_s7_expression`, `STRING`/`BOOL`, `dump` and `fetch_includes`' file reads. They enter the model as parameters:
  - `Registry` holds the other converters' recognizers and built-ins;
  - `Source` holds the dumped text and the included file text;
  - `Conversions` holds the `STRING` and `BOOL` conversions and `is_common_type`;
  - `load` is YAML loading.
- A symbol table is the log of the definition batches handed to it, in order.

**Deferred expressions.**
- `make_s7_expression(...).then(...)` is a request appended to a queue. The requester keeps a ticket, which is the request's index.
- Pass 2 receives the resolved queue as a sequence of optional `S7Expr` records (`value`, `isExpress`, `comment`).
- A ticket that resolved to nothing reads as `None` in pass 2.

**Errors.**
- A thrown error or an `elog` call is an `Err` of a `Result`, or an `Outcome` of `Fail`.
- `process.exit(status)` is the `ExitStatus` of the error.
- In `gen_data`, the first pass catches thrown errors and goes on to the second pass with what it has. A `process.exit` ends the run.

**Methods and specifications.**
- Each loop of the source is a method in the model. Each method is proved equal to a specification function, and the properties are lemmas about those functions.
- `gen_data.js` loads the converters by dynamic `import()` of `./<TYPE>.js` and looks their members up by suffixed names (`is_type_PI`, `PI_BUILDIN`, ...). The modules it imports from src/ are not part of this model. The model replaces them with a fixed registry. For the PI kind, the registry binds the exports of src/converters/PI.js: `is_type`, `parse_symbols`, `build`, `gen` and `BUILDIN`. The model takes these to be what `is_type_PI`, `parse_symbols_PI`, `build_PI`, `gen_PI` and `PI_BUILDIN` name. `BUILDIN` is YAML text, and the model takes it as its parsed list (`PiConverter.BUILDIN`). If the imported module did not re-export `BUILDIN` as `PI_BUILDIN`, then gen_data.js:126 would add no PI built-ins.

## Behaviour of the code worth knowing

- **Errors in the first pass.** `gen_data` catches errors thrown in the first pass (src/gen_data.js:141-159) and runs the second pass anyway. Only `process.exit` stops everything. An error thrown in the first pass does not stop the run.
- **Pulse bits.** `CPU_BUILDIN` has eight pulse bits after `Clock_Memory` (src/converters/CPU.js:5-16). The relocation re-derives all eight.
- **The `MB0` test.** This comparison is case-sensitive. A clock memory at `mb0` therefore re-adds the pulse bits at `M0.x` (`CpuConverter.LowerCaseMb0Rederives`).
- **The `.zyml` dumps.** They are named like configuration files (`/.*ya?ml$/i`), so a later run in the same folder reads them again (`GenData.ZymlFilesAreScanned`).
- **The default interlock name.** It is `IL${DB.length}`, and a DB record has no `length`. The default is therefore always `ILundefined` (`InterlockConverter.DEFAULT_NAME`).
- **`inversion`.** An output's `inversion` goes through the `STRING` conversion. The output is inverted exactly when the resulting text is not empty.
- **`NOT` and `and` inputs.** The items of an `and` input are joined by ` AND ` without outer parentheses. So a `falling` trigger gives `NOT a AND b AND "<DB>".<name>_fo`, and `NOT` applies to the first item only (`InterlockBuild.FallingConjunctionNegatesFirstItem`). The same holds for `off`. The model keeps this behaviour.
- **An array DB name.** `get_or_create` gives the DB the name `add_symbol` returns for an array DB name. `add_symbol` lives in src/symbols.js, which is not part of this model, and the model takes that name to be the array's first item (`InterlockConverter.DbNameOf`).

## Model

| member | source | states |
|---|---|---|
| Js.ExitStatus | src/gen_data.js:91-99 | an unknown document kind exits with status 1 and a duplicate configuration with status 2; every other error is thrown, not an exit |
| Js.FixedHexCorrect | src/converters/PI.js:90-91 | the fixed-width hex numeral is upper-case hexadecimal of the number, zero-padded to at least the width, and exactly the width when the number fits |
| CpuConverter.BuiltinLayout | src/converters/CPU.js:5-16 | the built-ins are `Clock_Memory` at `MB0` followed by eight pulse bits at `M0.0`..`M0.7` in order |
| CpuConverter.IsTypeCpuIgnoresCase | src/converters/CPU.js:39-41 | the CPU recognizer accepts exactly the strings that lower-case to `cpu` |
| CpuConverter.ParseSymbolsCpu | src/converters/CPU.js:56-69 | an address not matching `/^mb\d+$/i` (or a missing one) is rejected; exactly `MB0` adds nothing; any other valid address adds the eight pulse-bit names in built-in order |
| CpuConverter.RelocatedAddrShape | src/converters/CPU.js:61-66 | relocating pulse bit k to a clock byte `MB<n>` gives `M<n>.k`, the digits copied and the prefix upper-cased |
| CpuConverter.RelocationRederivesPulseBits | src/converters/CPU.js:60-67 | relocation re-adds each built-in pulse-bit name, in order, at bit k of the new clock byte |
| CpuConverter.RelocationToMB10 | src/converters/CPU.js:60-67 | with the clock memory at `MB10` the pulse bits are `M10.0`..`M10.7` |
| CpuConverter.LowerCaseMb0Rederives | src/converters/CPU.js:60 | the `MB0` test is case-sensitive: `mb0` re-adds the pulse bits at their built-in addresses |
| CpuConverter.BuildCpu | src/converters/CPU.js:71-73 | the output folder becomes `options.output_dir` when that is truthy and is kept otherwise |
| CpuConverter.BuildCpuIdempotent | src/converters/CPU.js:71-73 | building twice with the same options gives what building once gives |
| CpuConverter.GenCpu | src/converters/CPU.js:75-98 | the CPU rules are those of the areas with non-empty includes, the symbol rules those of the areas with a non-empty symbol table, each in area order |
| CpuConverter.GenCpuSelection | src/converters/CPU.js:81-92 | every area with includes contributes its CPU rule and every area with symbols its symbols rule |
| CpuConverter.DefaultRuleNames | src/converters/CPU.js:82-90 | without `output_file` (or with it `null`) the files are `<output_dir>/CPU.scl` and `<output_dir>/symbols.asc` |
| PiConverter.BuiltinBlocks | src/converters/PI.js:15-19 | the built-ins declare FB350, FC350 and UDT350, each a four-field definition named after its own type |
| PiConverter.IsTypeIgnoresCase | src/converters/PI.js:20-22 | the PI recognizer accepts exactly the strings that lower-case to `pi` under ASCII case mapping |
| PiConverter.Scan | src/converters/PI.js:59-77 | the scan never rewrites more modules than the list has, and rewrites all of them when nothing fails |
| PiConverter.ScanSpec | src/converters/PI.js:59-77 | module i is parsed at 1-based position i+1, each parsed module registers its address, DB and count DB in that order, and the scan stops at the first failing module with its error |
| PiConverter.ScanSucceedsIff | src/converters/PI.js:62-76 | the scan succeeds exactly when every module parses at its position |
| PiConverter.ParseModuleErrors | src/converters/PI.js:63-70 | a module without `DB` is rejected, a missing type becomes FM350-2, and any other type is rejected |
| PiConverter.LowerCaseTypeRejected | src/converters/PI.js:66-70 | the type comparison is case-sensitive: `fm350-2` is rejected |
| PiConverter.ParsedModuleShape | src/converters/PI.js:64-73 | a parsed module has type FM350-2 and `module_addr` of `['FM350-2_<k>_addr', 'IW' + addr]`, and an array `DB` gets the comment as its fourth field only where that field was absent |
| PiConverter.AddrNamesDistinct | src/converters/PI.js:71 | modules at different positions get different address symbol names |
| PiConverter.PiArea.ParseSymbols | src/converters/PI.js:59-77 | the method rewrites the modules in place as the scan does, registers what the scan registers, and sets `has_FM3502` once a module is parsed; on failure it keeps the modules already rewritten |
| PiConverter.PiArea.Build | src/converters/PI.js:85-93 | the method numbers the modules in place up to the first unresolved `module_addr`, which is the error; nothing else changes |
| PiConverter.BuildScan | src/converters/PI.js:85-93 | the only error of `build` is an unresolved `module_addr`, and without it every module is numbered |
| PiConverter.BuildScanSpec | src/converters/PI.js:87-92 | each numbered module gets the numbers of its own resolved block number; the build succeeds exactly when every address resolved |
| PiConverter.BuildScanNumbers | src/converters/PI.js:87-92 | every module numbered had a resolved block number and got exactly the numbers of that block number |
| PiConverter.BuildScanStopsAtUnresolved | src/converters/PI.js:87-92 | the numbering stops at the first unresolved address, and completes exactly when every address resolved |
| PiConverter.ChannelIsEightTimesModule | src/converters/PI.js:89-91 | `module_no` and `channel_no` are hexadecimal numerals of at least four and eight digits, and the channel number is eight times the module number |
| PiConverter.Gen | src/converters/PI.js:95-114 | one rule per PI area, in area order |
| PiConverter.RuleNameDefaults | src/converters/PI.js:99-101 | the default `PI_Loop` replaces only an absent `output_file`; a `null` one names the file `null.scl` |
| SclIncludes.SkipSpace | src/gen_data.js:106 | `\s*` consumes exactly the white space that follows |
| SclIncludes.FindClose | src/gen_data.js:106 | the lazy `[\s\S]*?\*\)` stops at the first `*)` |
| SclIncludes.MatchAt | src/gen_data.js:106 | a match starts at the beginning of the text or at a line feed; its captured text follows a `(*` and is followed by the first `*)` |
| SclIncludes.MatchIsSymbolsBlock | src/gen_data.js:106 | the captured text is `symbols:`, a white-space character, and text without `*)` |
| SclIncludes.ReplaceAll | src/gen_data.js:106-113 | the text left over is never longer than the input |
| SclIncludes.BlocksAreSymbolsBlocks | src/gen_data.js:106-113 | every block cut out is a symbols block |
| SclIncludes.CodeIsSubseq | src/gen_data.js:106-114 | the returned includes text is the input with characters deleted, the rest in order |
| SclIncludes.PlainTextUnchanged | src/gen_data.js:106-114 | a text without `(*` comes back unchanged, with no symbols |
| SclIncludes.BlockAfterTextIsCut | src/gen_data.js:105-114 | for any text `a` without `(*` that does not end in white space, any symbols block `y` and any rest `b`: the block of `a`, a line feed, `(*y*)`, `b` is cut out with the line feed before it, `a` is kept, and the replace goes on right after the `*)` |
| SclIncludes.OneBlockExample | src/gen_data.js:106-114 | `A`, a line feed and `(*symbols: x*)` leave the text `A` and the one block `symbols: x`: the block goes together with the line feed before it |
| SclIncludes.WithIncludeComment | src/gen_data.js:107-110 | an array or object symbol gets the comment `symbol from files of includes` in field 3 only when that field is nullish; a non-object symbol throws |
| SclIncludes.MarkAll | src/gen_data.js:107-110 | the symbols are marked in order, and the first one that throws decides the error |
| SclIncludes.BlockSymbols | src/gen_data.js:107-111 | YAML that fails to load throws; a document without `symbols` adds nothing; a non-list `symbols` throws |
| SclIncludes.IncludeBatches | src/gen_data.js:105-115 | the batches never outnumber the blocks, and there is one per block when nothing fails |
| SclIncludes.IncludeBatchesSpec | src/gen_data.js:105-115 | each batch is the marked symbol list of its own block, in text order, and a failure is that of the first failing block |
| SclIncludes.ArraySymbolComment | src/gen_data.js:108 | an array symbol keeps its first three fields, and keeps its own comment when it has one |
| GenData.KindOrders | src/gen_data.js:9-43 | both `TYPES` and the key order of `conf_list` list each kind exactly once |
| GenData.FindType | src/gen_data.js:90 | the kind found is one whose recognizer accepts the type |
| GenData.FindTypeFirst | src/gen_data.js:90 | the kind is the first entry of `TYPES` whose recognizer accepts the type, and there is none exactly when no recognizer accepts it |
| GenData.ClassifyFirst | src/gen_data.js:90-94 | classification picks the first accepting kind in `TYPES` order |
| GenData.CpuDocumentsClassify | src/gen_data.js:90 | a document typed `cpu` in any case is a CPU document |
| GenData.InitialValid | src/gen_data.js:33-45 | the empty registry is consistent |
| GenData.GetCpuSpec | src/gen_data.js:46-66 | a first call creates the record with connection base 16, DB base 100, FB/FC/UDT base 256, poll base 1, M/I/Q at [0,0], an empty symbol table and `output_dir` equal to the name; a later call changes nothing; no other controller is affected |
| GenData.GetCpuIdempotent | src/gen_data.js:48 | a second `get_cpu` with the same name changes nothing |
| GenData.GetCpuPreservesValid | src/gen_data.js:46-66 | `get_cpu` keeps the registry consistent |
| GenData.Validate | src/gen_data.js:86-94 | a success names a string controller (`CPU`, or `name` when `CPU` is absent) and a kind whose recognizer accepts the string `type`; a nullish document, a non-string controller name, a non-string type and an unknown type each give their own error |
| GenData.ClockMemoryFollowsLastDefinition | src/converters/CPU.js:58 | the address the CPU converter reads for `Clock_Memory` is that of the last array-form definition in the controller's symbol log, so a later definition moves it (the rule assumed for `add_symbols`, see `GenData.ClockMemoryAddr` under Left out) |
| GenData.BuiltinClockMemory | src/converters/CPU.js:7 | after the CPU built-ins, with no later definition, the clock memory is at `MB0` |
| GenData.Register | src/gen_data.js:101-134 | only the one controller changes: its stored texts gain this kind; on success exactly one area, belonging to it, is appended to the kind; on failure no area is added; other kinds keep their areas |
| GenData.Prepare | src/gen_data.js:95-96 | the controller exists afterwards with its stored texts and symbols unchanged, and a CPU document sets its `device` before the duplicate check |
| GenData.PreparePreservesValid | src/gen_data.js:95-96 | preparing the controller keeps the registry consistent |
| GenData.ValidationFailuresChangeNothing | src/gen_data.js:86-94 | a bad name, a bad type or an unknown kind leaves the registry unchanged |
| GenData.DuplicateKeepsFirst | src/gen_data.js:97-100 | a second document of a kind already stored for the controller exits with status 2 and keeps the first configuration |
| GenData.UnknownKindExits | src/gen_data.js:91-94 | a document of an unknown kind exits with status 1 |
| GenData.RegistrationOrder | src/gen_data.js:124-134 | the log grows by the includes' symbols, then the kind's built-ins, then the document's `symbols`, then what `parse_symbols` adds; the area is appended to its kind last |
| GenData.AddConfPreservesValid | src/gen_data.js:84-135 | `add_conf` keeps the registry consistent whatever it returns |
| GenData.RegisterSymbols | src/gen_data.js:124-134 | after the includes: only the one controller changes, keeping its name and stored texts; on success exactly one area, belonging to it, is appended to the kind; on failure no area is added; other kinds keep their areas |
| GenData.RegisterGrows | src/gen_data.js:101-134 | registering loses no controller and no stored configuration |
| GenData.RegisterPreservesValid | src/gen_data.js:101-134 | registering a new kind for a controller keeps the registry consistent |
| GenData.ZymlFilesAreScanned | src/gen_data.js:144 | a `<name>.zyml` file matches the configuration-file pattern |
| GenData.ConfFileNames | src/gen_data.js:144 | `.yml` and `.YAML` names are read and `.json` names are not |
| GenData.RunDocsPreservesValid | src/gen_data.js:149-152 | the documents of a file keep the registry consistent, however the loop stops |
| GenData.RunFilesPreservesValid | src/gen_data.js:141-159 | the first pass leaves a consistent registry whether it completes, catches a thrown error or exits |
| GenData.ReduceIsSections | src/gen_data.js:166-169 | the reduce appends one section per stored kind to the accumulated text, in order |
| GenData.ZymlShape | src/gen_data.js:166-169 | the dump is `# CPU <name> configuration` followed by `\n\n---\n<text>...` for each stored kind in `TYPES` order; with nothing stored it is the header alone |
| GenData.ZymlCpuOnly | src/gen_data.js:166-169 | a controller with only the CPU text `a: 1` and a line feed dumps the header followed by `\n\n---\na: 1\n...` |
| GenData.NoSections | src/gen_data.js:166-169 | kinds with nothing stored add nothing |
| GenData.ZymlFiles | src/gen_data.js:164-173 | one dump per controller, named after it, in controller creation order |
| GenData.BuildEvents | src/gen_data.js:184-187 | every build step is an area build of one of the kinds visited |
| GenData.SymbolsBuiltFirst | src/gen_data.js:179-187 | every controller's symbols are built exactly once, and all before any area is built |
| GenData.BuildEventsOrder | src/gen_data.js:184-187 | visiting one more kind with a `build` step appends one build per area of that kind, in registration order |
| GenData.BuildAreas | src/gen_data.js:186 | a successful build of a kind's areas keeps their number, each area's controller, and every controller's name, stored texts and symbols |
| GenData.BuildKindsKeepsRegistry | src/gen_data.js:184-187 | building keeps the controller order, every controller's name, stored texts and symbols, the number of areas of each kind, and which controller each area belongs to |
| GenData.BuildKeepsValid | src/gen_data.js:179-187 | the second pass leaves a consistent registry |
| GenData.PiBuildOne | src/converters/PI.js:87-88 | the PI build of one area fails exactly when one of its modules has an unresolved address, and then with that error |
| GenData.PiBuildOkIffResolved | src/converters/PI.js:87-88 | the PI build of a list of areas succeeds exactly when every area is resolved |
| GenData.PiBuildError | src/converters/PI.js:87-88 | the only error of the PI build is an unresolved module address |
| GenData.PiBuildFailsIffUnresolved | src/converters/PI.js:87-88 | the PI build fails exactly when some module of some area still has an unresolved address, and then with that error |
| GenData.CpuBuildOk | src/converters/CPU.js:71-73 | the CPU build never fails |
| GenData.CpuBuildKeepsOthers | src/converters/CPU.js:71-73 | a controller with no CPU area keeps its whole record |
| GenData.CpuBuildSetsDirs | src/converters/CPU.js:71-73 | when each controller has at most one area, each area's controller gets its output folder from that area's options |
| GenData.CpuBuildSetsOutputDirs | src/converters/CPU.js:71-73 | each CPU area sets its own controller's output folder from its options; other controllers keep theirs |
| GenData.Compilation.GetCpu | src/gen_data.js:46-66 | the method updates the controller map as `get_cpu` specifies, and returns the controller's record |
| GenData.Compilation.PushConf | src/gen_data.js:62-64 | the text is stored under the kind, and nothing else changes |
| GenData.Compilation.AddSymbols | src/gen_data.js:127-129 | the batches are appended to the controller's symbol log |
| GenData.Compilation.AddConf | src/gen_data.js:84-135 | the new state and outcome are those of the `add_conf` specification |
| GenData.Compilation.RegisterConf | src/gen_data.js:101-134 | the part after the duplicate check agrees with `Register` |
| GenData.Compilation.RegisterOwnSymbols | src/gen_data.js:124-134 | the built-ins, the document's `symbols`, the converter's own symbols and the area are added as `RegisterSymbols` specifies |
| GenData.Compilation.PassOne | src/gen_data.js:141-159 | the loop over files and documents agrees with the first-pass specification, including how it stops |
| GenData.Compilation.ZymlOutputs | src/gen_data.js:162-174 | the dumps written are those `ZymlFiles` specifies |
| GenData.Compilation.BuildKindStep | src/gen_data.js:186 | one kind's builds agree with `BuildKind` |
| GenData.Compilation.BuildAreasLoop | src/gen_data.js:186 | the `forEach(build)` over one kind's areas fails exactly when `BuildAreas` does, with its error; otherwise it leaves the controllers and areas `BuildAreas` gives; the order and `conf_list` are untouched |
| GenData.Compilation.SymbolPhase | src/gen_data.js:179-182 | one `build_symbols` per controller, in creation order |
| GenData.Compilation.BuildPhase | src/gen_data.js:184-187 | the builds run kind by kind in `conf_list` order, as `BuildKinds` specifies |
| GenData.Compilation.PassTwo | src/gen_data.js:179-187 | all symbol builds come first, then the kinds' builds; the outcome and the new registry are those of `BuildKinds`, an error is that of `BuildKinds`, and a consistent registry stays consistent |
| GenData.Compilation.Generate | src/gen_data.js:204-208 | the CPU rules come from the CPU areas with includes, the symbol rules from the CPU areas with symbols, and there is one PI rule per PI area |
| GenData.Compilation.Run | src/gen_data.js:137-209 | an exit in the first pass ends the run with its status and writes no dump; otherwise the dumps are those of the first pass's registry, an error of the second pass escapes, and a successful second pass leaves the registry `BuildKinds` gives, consistent; then `noconvert` gives the empty result, and otherwise the rules generated from that registry |
| InterlockConverter.IsFeatureAsWrittenIgnoresIl | src/converters/converter_interlock.js:10-13 | as written, `is_feature` accepts exactly the names that lower-case to `interlock` under ASCII case mapping; `IL` and `il` are rejected |
| InterlockConverter.IsFeatureAcceptsIl | src/converters/converter_interlock.js:10-13 | the corrected test accepts everything the written one does, and also `IL` in any case |
| InterlockConverter.InitialFieldsOk | src/converters/converter_interlock.js:126-144 | a new namespace satisfies the namespace invariant, with `enable` and `push` already taken |
| InterlockConverter.Push | src/converters/converter_interlock.js:131-136 | a nameless item is named `b_<index+1>`; the push fails exactly when the name is reserved (`enable`, `push`, an `Object.prototype` name) or already present; otherwise one entry is appended |
| InterlockConverter.PushKeepsFieldsOk | src/converters/converter_interlock.js:131-142 | pushes keep names unique and the counter equal to the number of nameless pushes, so the k-th nameless item is `b_k` |
| InterlockConverter.AutoNameCollision | src/converters/converter_interlock.js:132-134 | a data item named `b_1` makes the next nameless push fail |
| InterlockConverter.FindDb | src/converters/converter_interlock.js:189 | the index found is that of the first DB of that name, and there is none exactly when no DB has it |
| InterlockConverter.DbNameOf | src/converters/converter_interlock.js:181-187 | a string names the DB; anything but a string or an array is an error |
| InterlockConverter.GetOrCreate | src/converters/converter_interlock.js:179-191 | an existing DB is returned with the state unchanged; otherwise exactly one DB is appended and its symbol requested; names stay unique |
| InterlockConverter.GetOrCreateTwice | src/converters/converter_interlock.js:189 | a second lookup of the same name finds the DB the first created |
| InterlockConverter.Enqueue | src/converters/converter_interlock.js:235-244 | a deferred expression is appended to the queue and gets the next ticket |
| InterlockConverter.ParseNode | src/converters/converter_interlock.js:213-246 | a string naming a `data` item resolves at once to `"<DB>".<name>`; any other string or list is deferred; anything else gives nothing, and the queue is untouched then |
| InterlockConverter.EnableStage | src/converters/converter_interlock.js:248-266 | a second `enable` or a second `$enable` for the DB is an error; `$enable` sets the initial value to `TRUE` or `FALSE` |
| InterlockConverter.HeaderOf | src/converters/converter_interlock.js:268-276 | the comment defaults to `报警联锁`, the name to `ILundefined`, and the trigger to the lower-cased `trigger` or `rising` |
| InterlockConverter.PushData | src/converters/converter_interlock.js:322-323 | a data item is pushed into the namespace and recorded in the data dictionary |
| InterlockConverter.DataItem | src/converters/converter_interlock.js:280-324 | a non-string, non-map item is an error; a string item is a BOOL data field without expressions; an accepted map item requests two deferred expressions, its `read` and its `write` |
| InterlockConverter.DataStage | src/converters/converter_interlock.js:278-324 | a `data` that is present but not a list is an error; on success the DB keeps its name, symbol and interlocks, the queue only grows and the namespace invariant is kept |
| InterlockConverter.ConjItems | src/converters/converter_interlock.js:345-350 | each `and` item is parsed in order, one result per item |
| InterlockConverter.InputObject | src/converters/converter_interlock.js:338-356 | a truthy `and` that is not a list is an error; an object with no usable value has no truthy `and` and a `value` that is neither a string nor a list |
| InterlockConverter.InputPending | src/converters/converter_interlock.js:332-357 | an item that is not a string, list or map is an error; a string or list gives a value with the node's trigger and an empty comment; the DB itself does not change |
| InterlockConverter.InputOne | src/converters/converter_interlock.js:330-360 | an item that is not a string, list or map is an error; a string or list input takes the node's trigger and an empty comment; every input takes the next automatic name `b_<index+1>` |
| InterlockConverter.InputStage | src/converters/converter_interlock.js:326-360 | a missing, non-list or empty `input` is an error; the inputs are added in order |
| InterlockConverter.FoldInputs | src/converters/converter_interlock.js:330-360 | the successful inputs are one per item, in order |
| InterlockConverter.ResetOperand | src/converters/converter_interlock.js:362-372 | a reset item must be a string or a list, and is then parsed as a node with an empty comment |
| InterlockConverter.ResetsAccepted | src/converters/converter_interlock.js:362-376 | the reset list is accepted exactly when every item is a string or a list |
| InterlockConverter.FoldResets | src/converters/converter_interlock.js:376 | the accepted resets are one per item, in order |
| InterlockConverter.ResetStage | src/converters/converter_interlock.js:374-376 | a `reset` that is present but not a list is an error; otherwise there is one operand per item |
| InterlockConverter.OutputObject | src/converters/converter_interlock.js:386-400 | an output object is inverted exactly when its `inversion` text is not empty, and has a reset exactly when `reset` is truthy |
| InterlockConverter.OutputOf | src/converters/converter_interlock.js:401-402 | set and reset values are always `{TRUE, FALSE}`, with set `FALSE` exactly when inverted |
| InterlockConverter.OutputOne | src/converters/converter_interlock.js:380-404 | a non-string, non-list, non-map item is an error; a plain output sets `TRUE` and has no reset |
| InterlockConverter.FoldOutputs | src/converters/converter_interlock.js:380-404 | each output has complementary set and reset values, one per item |
| InterlockConverter.OutputStage | src/converters/converter_interlock.js:378-404 | an `output` that is present but not a list is an error |
| InterlockConverter.NodeBody | src/converters/converter_interlock.js:248-405 | a successful node has a non-empty `input` list with one built input per item, one reset and one output per item, complementary set and reset values, and the namespace invariant kept |
| InterlockConverter.NodeStep | src/converters/converter_interlock.js:205-406 | a node without a truthy `DB` is an error; a successful node adds at most one DB, only grows the queue, and had a non-empty `input` list |
| InterlockConverter.NodeStepKeepsValid | src/converters/converter_interlock.js:205-406 | each node keeps DB names unique, each namespace well formed, and every DB with an interlock |
| InterlockConverter.InitializeListValid | src/converters/converter_interlock.js:201-407 | a successful pass 1 leaves the DB set consistent |
| InterlockConverter.SecondEnableRejected | src/converters/converter_interlock.js:250 | a second node with `enable` for the same DB is rejected |
| InterlockConverter.SecondEnableInitRejected | src/converters/converter_interlock.js:263 | a second `$enable` for the same DB is rejected |
| InterlockConverter.InterlockArea.Defer | src/converters/converter_interlock.js:235-244 | the request is appended to the queue, and its index is returned |
| InterlockConverter.InterlockArea.GetOrCreateDb | src/converters/converter_interlock.js:179-191 | the find loop and the append agree with `GetOrCreate` |
| InterlockConverter.InterlockArea.PushField | src/converters/converter_interlock.js:131-136 | the DB's namespace changes as `Push` specifies |
| InterlockConverter.InterlockArea.PushDataField | src/converters/converter_interlock.js:322-323 | agrees with `PushData` |
| InterlockConverter.InterlockArea.AddEnable | src/converters/converter_interlock.js:248-266 | agrees with `EnableStage` |
| InterlockConverter.InterlockArea.AddDataItem | src/converters/converter_interlock.js:280-324 | agrees with `DataItem` |
| InterlockConverter.InterlockArea.AddData | src/converters/converter_interlock.js:278-324 | the loop over `data` agrees with `DataStage` |
| InterlockConverter.InterlockArea.Parse | src/converters/converter_interlock.js:213-246 | agrees with `ParseNode` |
| InterlockConverter.InterlockArea.ParseAll | src/converters/converter_interlock.js:345-350 | the loop over `and` items agrees with `ConjItems` |
| InterlockConverter.InterlockArea.AddInputObject | src/converters/converter_interlock.js:338-356 | agrees with `InputObject` |
| InterlockConverter.InterlockArea.AddInputPending | src/converters/converter_interlock.js:332-357 | agrees with `InputPending` |
| InterlockConverter.InterlockArea.AddInput | src/converters/converter_interlock.js:330-360 | agrees with `InputOne` |
| InterlockConverter.InterlockArea.AddInputs | src/converters/converter_interlock.js:326-360 | the loop over `input` agrees with `InputStage` |
| InterlockConverter.InterlockArea.AddReset | src/converters/converter_interlock.js:362-372 | agrees with `ResetOperand` |
| InterlockConverter.InterlockArea.AddResets | src/converters/converter_interlock.js:374-376 | the loop over `reset` agrees with `ResetStage` |
| InterlockConverter.InterlockArea.AddOutputObject | src/converters/converter_interlock.js:386-400 | agrees with `OutputObject` |
| InterlockConverter.InterlockArea.AddOutput | src/converters/converter_interlock.js:380-404 | agrees with `OutputOne` |
| InterlockConverter.InterlockArea.AddOutputItems | src/converters/converter_interlock.js:380-404 | the loop over the `output` items agrees with folding `OutputOne` over them, and stops at the first error |
| InterlockConverter.InterlockArea.AddOutputs | src/converters/converter_interlock.js:378-404 | the loop over `output` agrees with `OutputStage` |
| InterlockConverter.InterlockArea.RunStages | src/converters/converter_interlock.js:248-405 | one node's stages agree with `NodeBody` |
| InterlockConverter.InterlockArea.AddNode | src/converters/converter_interlock.js:205-406 | agrees with `NodeStep` and keeps the DB set consistent |
| InterlockConverter.InterlockArea.Initialize | src/converters/converter_interlock.js:201-407 | pass 1 from an empty DB set agrees with `InitializeList`, and on success the DB set is consistent |
| InterlockBuild.Declaration | src/converters/converter_interlock.js:422-426 | a declaration is `<name> {S7_m_c := 'true'} : <type>` followed by ` := <init> ;` when there is an initial value and ` ;` otherwise, and nothing else (its length is that of these parts) |
| InterlockBuild.AssignRead | src/converters/converter_interlock.js:420 | there is a read assignment exactly when the read expression resolved; it is `"<DB>".<name> := <expr>;` (start, end and length pinned) |
| InterlockBuild.AssignWrite | src/converters/converter_interlock.js:421 | there is a write assignment exactly when the write expression resolved; it is `<expr> := "<DB>".<name>;` (start, end and length pinned) |
| InterlockBuild.EnableField | src/converters/converter_interlock.js:418-427 | `enable` is declared, has no write assignment, and has a read assignment exactly when its `enable` expression resolved |
| InterlockBuild.EntryField | src/converters/converter_interlock.js:418-427 | exactly the data fields are declared; a field has a read (write) assignment exactly when it is a data field whose read (write) resolved; every entry keeps its name and comment, an input its own |
| InterlockBuild.BuiltFields | src/converters/converter_interlock.js:417-428 | the fields are `enable` followed by the namespace entries in insertion order |
| InterlockBuild.Paren | src/converters/converter_interlock.js:445-451 | a value is parenthesised exactly when it is compound |
| InterlockBuild.ExprOf | src/converters/converter_interlock.js:222-228 | a data reference is its own value and never compound; a deferred one is what it resolved to |
| InterlockBuild.AndItem | src/converters/converter_interlock.js:443-446 | an `and` item the parser rejected, or one that did not resolve, throws; otherwise it is its parenthesised text |
| InterlockBuild.InputTexts | src/converters/converter_interlock.js:440-452 | a single value gives its parenthesised text for the trigger and its plain text for the follower; a conjunction gives its items joined by ` AND ` for both, and fails exactly when an item does |
| InterlockBuild.Trigger | src/converters/converter_interlock.js:453-469 | only `on` and `off` get no edge follower; the follower is `<name>_fo` and the trigger ends by reading it; `on` is the value itself, `falling` and `off` start with `NOT <value>`, the others start with the value |
| InterlockBuild.TriggerTexts | src/converters/converter_interlock.js:453-469 | with `f` the follower `"<DB>".<name>_fo`: `falling` gives `NOT v AND f`, `change` gives `v XOR f`, `on` gives `v`, `off` gives `NOT v`, and every other type gives `v AND NOT f` |
| InterlockBuild.FallingConjunctionNegatesFirstItem | src/converters/converter_interlock.js:441-455 | a `falling` input over `and: [a, b]` builds the trigger `NOT a AND b AND "<DB>".<name>_fo` |
| InterlockBuild.BuildInput | src/converters/converter_interlock.js:440-470 | a built input keeps its name and comment, has an edge follower exactly when its trigger type is neither `on` nor `off`, and fails exactly when its value texts do; its trigger text and edge field are those `Trigger` gives for its value |
| InterlockBuild.BuildReset | src/converters/converter_interlock.js:471-473 | a reset has a text exactly when its operand resolved, and is `resettable` exactly when it is a data reference whose read is absent or unresolved |
| InterlockBuild.BuildOutput | src/converters/converter_interlock.js:474-482 | an output that is a data reference with a resolved read is an error; otherwise its set and reset values are kept, and it has a reset exactly when the original had one |
| InterlockBuild.BuildInterlock | src/converters/converter_interlock.js:439-483 | an interlock builds exactly when every input builds and no output reads back; it keeps its name, comment and extra code; its inputs and outputs are built item by item and its resets mapped |
| InterlockBuild.BuildInterlockAvoidsNoInterlock | src/converters/converter_interlock.js:439-483 | building one interlock never fails with the missing-interlock error |
| InterlockBuild.DbComment | src/converters/converter_interlock.js:411-413 | the DB comment is its symbol's comment, or the first interlock's when that is empty; an unresolved symbol, or an empty comment with no interlock, is an error |
| InterlockBuild.DeclarationLists | src/converters/converter_interlock.js:430-437 | `read_list` and `write_list` are order-preserving sub-sequences of the declarations, and contain exactly the declared fields with a read (write) assignment |
| InterlockBuild.EnableDeclaredFirst | src/converters/converter_interlock.js:418-430 | `enable` is always the first declaration |
| InterlockBuild.BuildDbShape | src/converters/converter_interlock.js:410-484 | the declarations are an ordered sub-sequence of the fields, beginning with `enable`; the read and write lists are as above; the edges are exactly the inputs with a follower, in order |
| InterlockBuild.ResetResettable | src/converters/converter_interlock.js:472 | a reset is cleared exactly when it named a data item of its DB whose read did not resolve; a symbol or an expression never is |
| InterlockBuild.OutputReadsBack | src/converters/converter_interlock.js:475-477 | an output is rejected in pass 2 exactly when it named a data item whose read resolved |
| InterlockBuild.BuildListAfterPass1 | src/converters/converter_interlock.js:409-485 | after a successful pass 1, pass 2 never fails for want of an interlock, and it keeps the DBs' number, names and order |
| InterlockBuild.BuildDbNeedsNoInterlock | src/converters/converter_interlock.js:412 | a DB with an interlock never fails on `interlocks[0]` |
| InterlockBuild.BuildFieldList | src/converters/converter_interlock.js:419-428 | the loop over `Object.values(fields)` gives `BuiltFields` |
| InterlockBuild.BuildInputList | src/converters/converter_interlock.js:440-470 | the loop over inputs gives the built inputs, and appends to the DB's edges exactly the inputs with a follower |
| InterlockBuild.BuildResetList | src/converters/converter_interlock.js:471-473 | the loop over resets gives the built resets |
| InterlockBuild.BuildOutputList | src/converters/converter_interlock.js:474-482 | the loop over outputs gives the built outputs or the first error |
| InterlockBuild.BuildInterlockEntries | src/converters/converter_interlock.js:439-483 | one interlock agrees with `BuildInterlock`, and the edges grow by its inputs with a follower |
| InterlockBuild.BuildDbEntry | src/converters/converter_interlock.js:410-484 | one DB agrees with `BuildDb` |
| InterlockBuild.Build | src/converters/converter_interlock.js:409-485 | `build_list` over every DB in order agrees with `BuildList` |

## Left out

- YAML parsing, `dump` and `loadAll`: documents arrive as values. `dump(conf)` is a given text.
- The symbol table: `add_symbols`, `add_symbol`, `make_s7_expression`, `make_prop_symbolic`, `get_S7_symbol`, `build_symbols`. These live in src/symbols.js, which is not part of this model. A symbol table is the log of what it received. `build_symbols` appears only as a step of the second pass. Resolutions enter pass 2 as a parameter.
- The allocators `IntIncHL` and `S7IncHL` (src/util.js, not part of this model): each is known only by its first number.
- `fixed_hex` (src/util.js): it is modelled as upper-case hexadecimal, zero-padded to the width.
- The `STRING`, `BOOL`, `ensure_value` and `nullable_value` conversions and `is_common_type` (src/s7data.js and src/symbols.js, not part of this model): they are the parameter `Conversions`.
- File and process I/O: `readdir`, `read_file`, `writeFile`, `console` and `trace_info`. `readdir` order is the order of the given file list. The text of the include files is given.
- The converters other than CPU, PI and interlock, including timer.js and valve.js: their recognizers, built-ins and `parse_symbols` steps are parameters (`Registry`).
- Template rendering, the copy lists (`gen_<type>_copy_list`), and the interlock converter's `gen`: they produce output text from the records modelled here.
- Object key order: `Object.values` puts integer-like keys first, and the model keeps insertion order for the `fields` and the controllers. A field or controller name such as `1` would be ordered differently.
- Prototype lookups: `data_dict[item]`, for an item such as `constructor`, finds an `Object.prototype` member. The model's data dictionary finds only real entries. The namespace does reject these names as taken (`InterlockConverter.PROTOTYPE_NAMES`).
- The state after a failure: when `add_conf` or an interlock stage throws, the partly updated records are abandoned. The methods leave that state unspecified, except where the run goes on with it. The PI loops, and the first pass of `gen_data`, specify it.
- Aliasing: the source mutates shared records. The same input object is both a namespace entry and an element of `edges`, and DB records are shared between the DB set and the caller. The model keeps DBs as values inside the area, and pass 2 returns annotated copies instead of writing into the pass-1 records.
- InterlockBuild.Build: it does not model `DB.symbol.comment ||= ...` rewriting the symbol's own comment; only the DB comment it yields is modelled.
- `s7_expr_desc` and the `default: { comment }` options of deferred requests: these are diagnostic texts and default comments for the symbol table, and only the comment given to boolean expressions is kept.

- Js.ToString: YAML numbers are taken to be integers (`Js.JsVal`'s `Num` holds an `int`). Floats, `NaN` and `Infinity` are not modelled, so number-to-text conversions and the truthiness of numbers are exact only for integers.
- PiConverter.ParsedModuleShape: for the same reason a non-integer `module_addr` such as `1.5`, which the source turns into `IW1.5`, cannot occur in the model.
- PiConverter.IsTypeIgnoresCase: case mapping is ASCII only. JavaScript's `toUpperCase` also maps `ı` (dotless i) to `I`, so PI.js:21 accepts `pı`, which the model rejects.
- InterlockConverter.IsFeatureAsWrittenIgnoresIl: case mapping is ASCII only. JavaScript's `toLowerCase` also maps the Kelvin sign (U+212A) to `k`, so converter_interlock.js:11 accepts `interloc` followed by the Kelvin sign, which the model rejects.
- GenData.ClockMemoryAddr: `symbols_dict['Clock_Memory']` is filled by `add_symbols` (src/symbols.js, not part of this model). The model assumes that the last array-form definition named `Clock_Memory` in the controller's symbol log wins. Object-form definitions are not looked at. So a `Clock_Memory` from the includes or from an earlier document is overridden by the later built-in at `MB0`.

## Findings

| source | as written | input that shows it | evidently intended | confidence | as-written member | corrected member |
|---|---|---|---|---|---|---|
| src/converters/converter_interlock.js:10-13 | the name is lower-cased and then compared with `'IL'`, which a lower-cased string never equals | `is_feature('IL')` is false | `IL` accepted in any case, like `interlock` | not executed; high | InterlockConverter.IsFeatureAsWrittenIgnoresIl | InterlockConverter.IsFeatureAcceptsIl |

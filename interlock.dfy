/** Pass 1 of the interlock converter (src/converters/converter_interlock.js):
    the feature test, the per-DB field namespace, the find-or-create DB set, and
    the rules that turn each interlock node's `enable`, `data`, `input`,
    `reset` and `output` entries into records.  A symbolic part that the
    symbol table resolves later (`make_s7_expression(...).then(...)`) becomes a
    ticket: the index of a request in a queue that pass 2 finds filled in. */
module InterlockConverter {
  import opened Js
  import opened Seqs

  const LOOP_NAME := "Interlock_Loop"

  // ---------------------------------------------------------------------
  // is_feature

  /** The feature test as written: the name is lower-cased, then compared with
      'interlock' and with the upper-case 'IL'. */
  predicate IsFeatureAsWritten(name: string)
  {
    Lower(name) == "interlock" || Lower(name) == "IL"
  }

  lemma LowerHasNoCapitalI(s: string, i: nat)
    requires i < |s|
    ensures Lower(s)[i] != 'I'
  {
  }

  /** The second comparison can never hold, so the test accepts exactly the
      spellings of 'interlock' and rejects 'IL' in every spelling. */
  lemma IsFeatureAsWrittenIgnoresIl(name: string)
    ensures IsFeatureAsWritten(name) <==> Lower(name) == "interlock"
    ensures !IsFeatureAsWritten("IL") && !IsFeatureAsWritten("il")
  {
    if |name| > 0 {
      LowerHasNoCapitalI(name, 0);
    }
    LowerHasNoCapitalI("IL", 0);
    LowerHasNoCapitalI("il", 0);
  }

  /** The test the code evidently intends: 'interlock' or 'il' in any spelling. */
  predicate IsFeature(name: string)
  {
    Lower(name) == "interlock" || Lower(name) == "il"
  }

  /** The corrected test accepts everything the written one does, and also
      'IL', 'Il', 'iL' and 'il', which the written one rejects. */
  lemma IsFeatureAcceptsIl(name: string)
    ensures IsFeatureAsWritten(name) ==> IsFeature(name)
    ensures |name| == 2 && LowerChar(name[0]) == 'i' && LowerChar(name[1]) == 'l' ==>
              IsFeature(name) && !IsFeatureAsWritten(name)
  {
    IsFeatureAsWrittenIgnoresIl(name);
    if |name| == 2 && LowerChar(name[0]) == 'i' && LowerChar(name[1]) == 'l' {
      assert Lower(name) == "il";
    }
  }

  // ---------------------------------------------------------------------
  // Loops whose body may throw

  /** A left fold whose steps may fail: the first failure is the result.  This
      is a `for` loop or an `Array.prototype.map` whose body may throw. */
  function Fold<S, X>(step: (S, X) -> Result<S>, s0: S, xs: seq<X>): Result<S>
  {
    if |xs| == 0 then Ok(s0)
    else
      match Fold(step, s0, xs[..|xs| - 1])
      case Err(e) => Err(e)
      case Ok(s) => step(s, xs[|xs| - 1])
  }

  lemma FoldSnoc<S, X>(step: (S, X) -> Result<S>, s0: S, xs: seq<X>, i: nat)
    requires i < |xs|
    ensures Fold(step, s0, xs[..i + 1]) ==
              match Fold(step, s0, xs[..i])
              case Err(e) => Err(e)
              case Ok(s) => step(s, xs[i])
  {
    assert xs[..i + 1][..i] == xs[..i];
  }

  /** Once a prefix has failed, the whole loop has failed the same way. */
  lemma {:induction false} FoldStops<S, X>(step: (S, X) -> Result<S>, s0: S, xs: seq<X>, i: nat)
    requires i <= |xs| && Fold(step, s0, xs[..i]).Err?
    ensures Fold(step, s0, xs) == Fold(step, s0, xs[..i])
    decreases |xs|
  {
    if i < |xs| {
      var n := |xs| - 1;
      assert xs[..n][..i] == xs[..i];
      FoldStops(step, s0, xs[..n], i);
    } else {
      assert xs[..i] == xs;
    }
  }

  /** A property every successful step keeps holds of a successful loop's result. */
  lemma {:induction false} FoldKeeps<S, X>(step: (S, X) -> Result<S>, inv: S -> bool, s0: S, xs: seq<X>)
    requires inv(s0)
    requires forall s, x :: inv(s) && step(s, x).Ok? ==> inv(step(s, x).value)
    ensures Fold(step, s0, xs).Ok? ==> inv(Fold(step, s0, xs).value)
  {
    if |xs| > 0 {
      FoldKeeps(step, inv, s0, xs[..|xs| - 1]);
    }
  }

  // ---------------------------------------------------------------------
  // Conversions and deferred expressions

  /** The scalar conversions of `s7data.js` and `symbols.js`, which are not
      part of this model: `toText(v)` is `new STRING(v).value` (also what
      `ensure_value(STRING, v)` yields), `toBool(v)` is `BOOL(v).value`, and
      `isCommonType` is `is_common_type`. */
  datatype Conversions = Conversions(
    toText: JsVal -> Result<string>,
    toBool: JsVal -> Result<bool>,
    isCommonType: string -> bool)

  /** `nullable_value(STRING, v)?.value`: nothing for `null` or `undefined`. */
  function NullableText(conv: Conversions, v: JsVal): (r: Result<Option<string>>)
    ensures Nullish(v) ==> r == Ok(None)
    ensures !Nullish(v) ==> (r.Ok? <==> conv.toText(v).Ok?)
    ensures !Nullish(v) && r.Ok? ==> r.value == Some(conv.toText(v).value)
  {
    if Nullish(v) then Ok(None)
    else
      var s :- conv.toText(v);
      Ok(Some(s))
  }

  /** `nullable_value(BOOL, v)?.value` */
  function NullableBool(conv: Conversions, v: JsVal): (r: Result<Option<bool>>)
    ensures Nullish(v) ==> r == Ok(None)
    ensures !Nullish(v) ==> (r.Ok? <==> conv.toBool(v).Ok?)
    ensures !Nullish(v) && r.Ok? ==> r.value == Some(conv.toBool(v).value)
  {
    if Nullish(v) then Ok(None)
    else
      var b :- conv.toBool(v);
      Ok(Some(b))
  }

  /** What the symbol table hands back for a deferred expression. */
  datatype S7Expr = S7Expr(value: string, isExpress: bool, comment: string)

  /** The options a deferred expression is requested with. */
  datatype Purpose =
    | DbSymbol                                // the DB's own symbol
    | EnableRead                              // `enable`, forced to BOOL
    | DataRead(dtype: string, comment: string)
    | DataWrite(dtype: string, comment: string)
    | BoolExpr(given: Option<string>)         // an input, reset or output value; `given` is its default comment

  datatype Request = Request(source: JsVal, purpose: Purpose)

  /** What `parse_IL_expression` returns for a value it accepts: a reference
      to a `data` item of the same DB, resolved at once, or a deferred
      expression. */
  datatype Operand =
    | Ref(data: string, value: string, read: Option<nat>)
    | Ticket(ticket: nat)

  // ---------------------------------------------------------------------
  // The field namespace of a DB (create_fields)

  datatype FieldKind =
    | DataField(dtype: string, comment: string, read: Option<nat>, write: Option<nat>)
    | InputField(comment: string)   // the input record itself, keeping its comment

  datatype Field = Field(name: string, kind: FieldKind)

  /** The `fields` object: its reserved `enable` entry, the entries `push`
      added in insertion order, and the counter behind the automatic names. */
  datatype Fields = Fields(enableInit: string, enableRead: Option<nat>, entries: seq<Field>, index: nat)

  const ENABLE_COMMENT := "允许报警或连锁"
  const INITIAL_FIELDS := Fields("TRUE", None, [], 0)

  /** The names every plain object inherits from `Object.prototype`. */
  const PROTOTYPE_NAMES: set<string> := {
    "constructor", "hasOwnProperty", "isPrototypeOf", "propertyIsEnumerable",
    "toString", "toLocaleString", "valueOf", "__proto__",
    "__defineGetter__", "__defineSetter__", "__lookupGetter__", "__lookupSetter__"}

  function AutoName(k: nat): string
  {
    "b_" + NatToString(k)
  }

  /** `fields[name]` is truthy: the reserved `enable`, the method `push`, an
      inherited name, or an entry already pushed. */
  predicate Taken(fs: Fields, name: string)
  {
    || name == "enable" || name == "push" || name in PROTOTYPE_NAMES
    || exists i :: 0 <= i < |fs.entries| && fs.entries[i].name == name
  }

  /** The number of entries pushed without a name (only inputs are). */
  function CountAuto(entries: seq<Field>): nat
  {
    if |entries| == 0 then 0
    else CountAuto(entries[..|entries| - 1]) + (if entries[|entries| - 1].kind.InputField? then 1 else 0)
  }

  /** What `push` keeps true of the namespace: every name occurs once and none
      shadows `enable`, `push` or an inherited name; the counter has counted
      the nameless pushes, and the k-th of them is named `b_<k>`. */
  predicate FieldsOk(fs: Fields)
  {
    && (forall i, j :: 0 <= i < j < |fs.entries| ==> fs.entries[i].name != fs.entries[j].name)
    && (forall i :: 0 <= i < |fs.entries| ==>
          && fs.entries[i].name != "enable" && fs.entries[i].name != "push"
          && fs.entries[i].name !in PROTOTYPE_NAMES)
    && (forall i :: 0 <= i < |fs.entries| && fs.entries[i].kind.InputField? ==>
          fs.entries[i].name == AutoName(CountAuto(fs.entries[..i + 1])))
    && fs.index == CountAuto(fs.entries)
  }

  lemma InitialFieldsOk()
    ensures FieldsOk(INITIAL_FIELDS)
    ensures Taken(INITIAL_FIELDS, "enable") && Taken(INITIAL_FIELDS, "push")
  {
  }

  /** `fields.push(item)`: a nameless item first takes `b_<index + 1>`; a name
      that is taken is an error. */
  function Push(fs: Fields, name: Option<string>, kind: FieldKind): (r: Result<Fields>)
    ensures r.Err? ==> r.error == DuplicateField
    ensures name.Some? ==> (r.Ok? <==> !Taken(fs, name.value))
    ensures name.None? ==> (r.Ok? <==> !Taken(fs, AutoName(fs.index + 1)))
    ensures r.Ok? ==>
              && r.value.enableInit == fs.enableInit && r.value.enableRead == fs.enableRead
              && |r.value.entries| == |fs.entries| + 1
              && r.value.entries[..|fs.entries|] == fs.entries
              && r.value.entries[|fs.entries|] ==
                   Field(if name.Some? then name.value else AutoName(fs.index + 1), kind)
              && r.value.index == if name.Some? then fs.index else fs.index + 1
  {
    var index := if name.None? then fs.index + 1 else fs.index;
    var n := if name.Some? then name.value else AutoName(index);
    if Taken(fs, n) then Err(DuplicateField)
    else Ok(Fields(fs.enableInit, fs.enableRead, fs.entries + [Field(n, kind)], index))
  }

  lemma CountAutoSnoc(entries: seq<Field>, f: Field)
    ensures CountAuto(entries + [f]) == CountAuto(entries) + (if f.kind.InputField? then 1 else 0)
  {
    assert (entries + [f])[..|entries|] == entries;
  }

  /** `push` keeps the namespace well formed, provided only inputs come without
      a name. */
  lemma PushKeepsFieldsOk(fs: Fields, name: Option<string>, kind: FieldKind)
    requires name.None? <==> kind.InputField?
    ensures FieldsOk(fs) && Push(fs, name, kind).Ok? ==> FieldsOk(Push(fs, name, kind).value)
  {
    if FieldsOk(fs) && Push(fs, name, kind).Ok? {
      var n := if name.Some? then name.value else AutoName(fs.index + 1);
      assert !Taken(fs, n);
      SnocKeepsFieldsOk(fs, Field(n, kind), Push(fs, name, kind).value.index);
      assert Push(fs, name, kind).value.entries == fs.entries + [Field(n, kind)];
    }
  }

  lemma SnocKeepsFieldsOk(fs: Fields, f: Field, index: nat)
    requires FieldsOk(fs)
    requires forall i :: 0 <= i < |fs.entries| ==> fs.entries[i].name != f.name
    requires f.name != "enable" && f.name != "push" && f.name !in PROTOTYPE_NAMES
    requires f.kind.InputField? ==> f.name == AutoName(fs.index + 1)
    requires index == fs.index + (if f.kind.InputField? then 1 else 0)
    ensures FieldsOk(Fields(fs.enableInit, fs.enableRead, fs.entries + [f], index))
  {
    var es := fs.entries + [f];
    CountAutoSnoc(fs.entries, f);
    forall i | 0 <= i < |es| && es[i].kind.InputField?
      ensures es[i].name == AutoName(CountAuto(es[..i + 1]))
    {
      if i < |fs.entries| {
        assert es[..i + 1] == fs.entries[..i + 1];
      } else {
        assert es[..i + 1] == es;
      }
    }
  }

  /** A data item named like an automatic name makes the later nameless push
      that would take that name fail. */
  lemma AutoNameCollision()
    ensures var d := Push(INITIAL_FIELDS, Some("b_1"), DataField("BOOL", "", None, None));
            d.Ok? && Push(d.value, None, InputField("")) == Err(DuplicateField)
  {
    var d := Push(INITIAL_FIELDS, Some("b_1"), DataField("BOOL", "", None, None));
    assert d.value.entries[0].name == "b_1";
    assert AutoName(1) == "b_1";
  }

  // ---------------------------------------------------------------------
  // DBs and the find-or-create set (create_DB_set)

  datatype Input = Input(name: string, value: InputValue, triggerType: string, comment: string)

  /** A single value, or the items of an `and` list (an item `parse_IL_expression`
      rejected stays as `None`). */
  datatype InputValue = Single(op: Operand) | Conj(items: seq<Option<Operand>>)

  datatype Output = Output(op: Operand, setValue: string, resetValue: string, reset: Option<Operand>)

  datatype Interlock = Interlock(
    name: string, extraCode: Option<string>, comment: string,
    inputs: seq<Input>, resets: seq<Operand>, outputs: seq<Output>)

  /** A DB of the set.  `dataDict` maps each `data` name to the ticket of its
      `read` expression; a plain-string data item has none. */
  datatype Db = Db(
    name: string, fields: Fields, dataDict: map<string, Option<nat>>,
    interlocks: seq<Interlock>, enableReadable: bool, enableInitialized: bool,
    symbol: nat)

  /** The converter's state: the DB list and the queue of deferred expressions. */
  datatype AreaState = AreaState(dbs: seq<Db>, queue: seq<Request>)

  const EMPTY := AreaState([], [])

  predicate UniqueNames(dbs: seq<Db>)
  {
    forall i, j :: 0 <= i < j < |dbs| ==> dbs[i].name != dbs[j].name
  }

  /** `DB_list.find(DB => DB.name === name)` */
  function FindDb(dbs: seq<Db>, name: string): (r: Option<nat>)
    ensures r.Some? ==> r.value < |dbs| && dbs[r.value].name == name
    ensures r.Some? ==> forall j :: 0 <= j < r.value ==> dbs[j].name != name
    ensures r.None? ==> forall j :: 0 <= j < |dbs| ==> dbs[j].name != name
  {
    if |dbs| == 0 then None
    else if dbs[0].name == name then Some(0)
    else match FindDb(dbs[1..], name)
      case None => None
      case Some(k) => Some(k + 1)
  }

  /** The DB name of a `DB` entry: a string, or a symbol definition whose name
      is its first item. */
  function DbNameOf(v: JsVal): (r: Result<string>)
    ensures v.Str? ==> r == Ok(v.s)
    ensures !v.Str? && !v.Arr? ==> r == Err(BadDbName)
  {
    var n := if v.Arr? then (if |v.items| > 0 then v.items[0] else Undefined) else v;
    if n.Str? then Ok(n.s) else Err(BadDbName)
  }

  function NewDb(name: string, symbol: nat): Db
  {
    Db(name, INITIAL_FIELDS, map[], [], false, false, symbol)
  }

  /** `get_or_create(name)`: the index of the DB of that name, appended with a
      request for its symbol when there is none yet. */
  function GetOrCreate(a: AreaState, v: JsVal): (r: Result<(AreaState, nat)>)
    ensures r.Err? ==> DbNameOf(v).Err? && r.error == BadDbName
    ensures r.Ok? ==> DbNameOf(v).Ok?
    ensures r.Ok? ==>
              var (a', d) := r.value;
              && d < |a'.dbs| && a'.dbs[d].name == DbNameOf(v).value
              && |a.dbs| <= |a'.dbs| && a'.dbs[..|a.dbs|] == a.dbs && a.queue <= a'.queue
              && (if d < |a.dbs| then a' == a
                  else d == |a.dbs| && |a'.dbs| == |a.dbs| + 1
                       && a'.dbs[d] == NewDb(a'.dbs[d].name, |a.queue|)
                       && a'.queue == a.queue + [Request(Str(a'.dbs[d].name), DbSymbol)])
    ensures r.Ok? && UniqueNames(a.dbs) ==> UniqueNames(r.value.0.dbs)
  {
    var name :- DbNameOf(v);
    match FindDb(a.dbs, name)
    case Some(i) => Ok((a, i))
    case None =>
      Ok((AreaState(a.dbs + [NewDb(name, |a.queue|)], a.queue + [Request(Str(name), DbSymbol)]), |a.dbs|))
  }

  /** Looking a DB up a second time finds the same DB and changes nothing. */
  lemma GetOrCreateTwice(a: AreaState, v: JsVal)
    requires UniqueNames(a.dbs)
    requires GetOrCreate(a, v).Ok?
    ensures var (a', d) := GetOrCreate(a, v).value;
            GetOrCreate(a', v) == Ok((a', d))
  {
  }

  // ---------------------------------------------------------------------
  // One interlock node (the body of the loop in initialize_list)

  /** The DB being filled in, and the queue. */
  datatype Work = Work(db: Db, queue: seq<Request>)

  function Enqueue(w: Work, source: JsVal, p: Purpose): (r: (Work, nat))
    ensures r.0.db == w.db && r.0.queue == w.queue + [Request(source, p)] && r.1 == |w.queue|
  {
    (w.(queue := w.queue + [Request(source, p)]), |w.queue|)
  }

  /** What a step may change: the DB keeps its name and interlocks, its
      namespace stays well formed, and the queue only grows. */
  predicate Extends(w: Work, w': Work)
  {
    && w'.db.name == w.db.name && w'.db.interlocks == w.db.interlocks
    && w'.db.symbol == w.db.symbol
    && (FieldsOk(w.db.fields) ==> FieldsOk(w'.db.fields))
    && |w.queue| <= |w'.queue| && w'.queue[..|w.queue|] == w.queue
  }

  lemma ExtendsTransitive(w: Work, w': Work, w'': Work)
    requires Extends(w, w') && Extends(w', w'')
    ensures Extends(w, w'')
  {
    assert w''.queue[..|w.queue|] == w''.queue[..|w'.queue|][..|w.queue|];
  }

  /** `"<DB>".<name>`, the resolved value of a data reference. */
  function DataRef(db: string, name: string): string
  {
    "\"" + db + "\"." + name
  }

  /** `parse_IL_expression(item, { comment })` */
  function ParseNode(w: Work, x: JsVal, comment: Option<string>): (r: (Work, Option<Operand>))
    ensures Extends(w, r.0) && r.0.db == w.db
    ensures r.1.Some? <==> x.Str? || x.Arr?
    ensures x.Str? && x.s in w.db.dataDict ==>
              r == (w, Some(Ref(x.s, DataRef(w.db.name, x.s), w.db.dataDict[x.s])))
    ensures (x.Arr? || (x.Str? && x.s !in w.db.dataDict)) ==>
              r == (Enqueue(w, x, BoolExpr(comment)).0, Some(Ticket(|w.queue|)))
    ensures !x.Str? && !x.Arr? ==> r.0 == w
  {
    if x.Str? && x.s in w.db.dataDict then
      (w, Some(Ref(x.s, DataRef(w.db.name, x.s), w.db.dataDict[x.s])))
    else if x.Str? || x.Arr? then
      var (w', t) := Enqueue(w, x, BoolExpr(comment));
      (w', Some(Ticket(t)))
    else (w, None)
  }

  /** `enable` and `$enable` */
  function EnableStage(conv: Conversions, w: Work, node: JsVal): (r: Result<Work>)
    ensures Truthy(Get(node, "enable")) && w.db.enableReadable ==> r == Err(DuplicateEnable)
    ensures r.Ok? && Truthy(Get(node, "enable")) ==>
              r.value.db.enableReadable && r.value.db.fields.enableRead == Some(|w.queue|)
              && r.value.queue == w.queue + [Request(Get(node, "enable"), EnableRead)]
    ensures r.Ok? && !Truthy(Get(node, "enable")) ==>
              r.value.queue == w.queue && r.value.db.fields.enableRead == w.db.fields.enableRead
    ensures !(Truthy(Get(node, "enable")) && w.db.enableReadable) &&
            NullableBool(conv, Get(node, "$enable")) == Ok(Some(true)) ==>
              (r.Ok? <==> !w.db.enableInitialized) &&
              (r.Ok? ==> r.value.db.enableInitialized && r.value.db.fields.enableInit == "TRUE")
    ensures !(Truthy(Get(node, "enable")) && w.db.enableReadable) &&
            NullableBool(conv, Get(node, "$enable")) == Ok(Some(false)) ==>
              (r.Ok? <==> !w.db.enableInitialized) &&
              (r.Ok? ==> r.value.db.enableInitialized && r.value.db.fields.enableInit == "FALSE")
    ensures r.Ok? && Nullish(Get(node, "$enable")) ==>
              r.value.db.fields.enableInit == w.db.fields.enableInit
    ensures r.Ok? ==> Extends(w, r.value) && r.value.db.fields.entries == w.db.fields.entries
  {
    var enable := Get(node, "enable");
    var w1 :- if !Truthy(enable) then Ok(w)
      else if w.db.enableReadable then Err(DuplicateEnable)
      else
        var (w', t) := Enqueue(w, enable, EnableRead);
        Ok(w'.(db := w'.db.(fields := w'.db.fields.(enableRead := Some(t)), enableReadable := true)));
    var init :- NullableBool(conv, Get(node, "$enable"));
    if init.None? then Ok(w1)
    else if w1.db.enableInitialized then Err(DuplicateEnableInit)
    else
      Ok(w1.(db := w1.db.(enableInitialized := true,
                          fields := w1.db.fields.(enableInit := if init.value then "TRUE" else "FALSE"))))
  }

  const DEFAULT_COMMENT := "报警联锁"
  /** The default interlock name: `IL${DB.length}` reads a property the DB
      record does not have, so it is always this. */
  const DEFAULT_NAME := "ILundefined"

  datatype Header = Header(comment: string, name: string, extraCode: Option<string>, trigger: string)

  /** `comment`, `name`, `extra_code` and the default trigger of a node. */
  function HeaderOf(conv: Conversions, node: JsVal): (r: Result<Header>)
    ensures (Nullish(Get(node, "comment")) && conv.toText(Str(DEFAULT_COMMENT)) == Ok(DEFAULT_COMMENT) &&
             r.Ok?) ==> r.value.comment == DEFAULT_COMMENT
    ensures (Nullish(Get(node, "name")) && conv.toText(Str(DEFAULT_NAME)) == Ok(DEFAULT_NAME) &&
             r.Ok?) ==> r.value.name == DEFAULT_NAME
    ensures r.Ok? && Nullish(Get(node, "trigger")) ==> r.value.trigger == "rising"
    ensures r.Ok? && !Nullish(Get(node, "trigger")) ==>
              conv.toText(Get(node, "trigger")).Ok? &&
              r.value.trigger == Lower(conv.toText(Get(node, "trigger")).value)
  {
    var comment :- conv.toText(Coalesce(Get(node, "comment"), Str(DEFAULT_COMMENT)));
    var name :- conv.toText(Coalesce(Get(node, "name"), Str(DEFAULT_NAME)));
    var extra :- NullableText(conv, Get(node, "extra_code"));
    var trigger :- NullableText(conv, Get(node, "trigger"));
    Ok(Header(comment, name, extra, if trigger.Some? then Lower(trigger.value) else "rising"))
  }

  /** The items of a list entry; an absent or falsy entry has none. */
  function ItemsOf(v: JsVal): seq<JsVal>
  {
    if v.Arr? then v.items else []
  }

  // `data`

  /** `fields.push(data); data_dict[data.name] = data;` */
  function PushData(w: Work, name: string, kind: FieldKind): (r: Result<Work>)
    requires kind.DataField?
    ensures r.Ok? <==> !Taken(w.db.fields, name)
    ensures r.Err? ==> r.error == DuplicateField
    ensures r.Ok? ==> Extends(w, r.value) && r.value.queue == w.queue
    ensures r.Ok? ==> r.value.db.dataDict == w.db.dataDict[name := kind.read]
    ensures r.Ok? ==> r.value.db.fields.entries == w.db.fields.entries + [Field(name, kind)]
  {
    PushKeepsFieldsOk(w.db.fields, Some(name), kind);
    var fs :- Push(w.db.fields, Some(name), kind);
    assert fs.entries == w.db.fields.entries + [Field(name, kind)];
    Ok(w.(db := w.db.(fields := fs, dataDict := w.db.dataDict[name := kind.read])))
  }

  /** One `data` item: a string names a BOOL field; an object names a field of
      its `type` (BOOL unless a common type) whose `read` and `write`
      expressions are both requested. */
  function DataItem(conv: Conversions, w: Work, x: JsVal): (r: Result<Work>)
    ensures !x.Str? && !x.Obj? ==> r == Err(BadDataItem)
    ensures x.Str? ==> r == PushData(w, x.s, DataField("BOOL", "", None, None))
    ensures r.Ok? && x.Obj? ==> |r.value.queue| == |w.queue| + 2
    ensures r.Ok? ==> Extends(w, r.value)
  {
    match x
    case Str(s) => PushData(w, s, DataField("BOOL", "", None, None))
    case Obj(_) =>
      var name :- conv.toText(Get(x, "name"));
      var comment :- conv.toText(Coalesce(Get(x, "comment"), Str("")));
      var t :- NullableText(conv, Get(x, "type"));
      var dtype := if t.Some? && conv.isCommonType(t.value) then t.value else "BOOL";
      var (w1, rd) := Enqueue(w, Get(x, "read"), DataRead(dtype, comment));
      var (w2, wr) := Enqueue(w1, Get(x, "write"), DataWrite(dtype, comment));
      ExtendsTransitive(w, w1, w2);
      var r := PushData(w2, name, DataField(dtype, comment, Some(rd), Some(wr)));
      if r.Ok? then ExtendsTransitive(w, w2, r.value); r else r
    case _ => Err(BadDataItem)
  }

  function DataStep(conv: Conversions): (Work, JsVal) -> Result<Work>
  {
    (w, x) => DataItem(conv, w, x)
  }

  function DataStage(conv: Conversions, w: Work, v: JsVal): (r: Result<Work>)
    ensures Truthy(v) && !v.Arr? ==> r == Err(DataNotList)
    ensures r.Ok? ==> Extends(w, r.value)
  {
    if Truthy(v) && !v.Arr? then Err(DataNotList)
    else
      var inv := (s: Work) => Extends(w, s);
      assert forall s, x :: inv(s) && DataStep(conv)(s, x).Ok? ==> inv(DataStep(conv)(s, x).value) by {
        forall s, x | inv(s) && DataStep(conv)(s, x).Ok? ensures inv(DataStep(conv)(s, x).value) {
          ExtendsTransitive(w, s, DataStep(conv)(s, x).value);
        }
      }
      FoldKeeps(DataStep(conv), inv, w, ItemsOf(v));
      Fold(DataStep(conv), w, ItemsOf(v))
  }

  // `input`

  /** The items of an `and` list, each through `parse_IL_expression` with no
      comment. */
  function ConjItems(w: Work, xs: seq<JsVal>): (r: (Work, seq<Option<Operand>>))
    ensures Extends(w, r.0) && r.0.db == w.db && |r.1| == |xs|
    ensures forall i :: 0 <= i < |xs| ==> (r.1[i].Some? <==> xs[i].Str? || xs[i].Arr?)
  {
    if |xs| == 0 then (w, [])
    else
      var (w1, items) := ConjItems(w, xs[..|xs| - 1]);
      var (w2, p) := ParseNode(w1, xs[|xs| - 1], None);
      ExtendsTransitive(w, w1, w2);
      (w2, items + [p])
  }

  lemma ConjItemsSnoc(w: Work, xs: seq<JsVal>, i: nat)
    requires i < |xs|
    ensures var (w1, items) := ConjItems(w, xs[..i]);
            var (w2, p) := ParseNode(w1, xs[i], None);
            ConjItems(w, xs[..i + 1]) == (w2, items + [p])
  {
    assert xs[..i + 1][..i] == xs[..i];
  }

  /** An input object: its own `trigger` (lower-cased, else the node's) and
      `comment`, and either an `and` list or a `value`. */
  function InputObject(conv: Conversions, trigger: string, w: Work, x: JsVal)
    : (r: Result<(Work, Option<InputValue>, string, string)>)
    ensures Truthy(Get(x, "and")) && !Get(x, "and").Arr? && r.Ok? ==> false
    ensures r.Ok? ==> Extends(w, r.value.0) && r.value.0.db == w.db
    ensures r.Ok? && r.value.1.None? ==> !Truthy(Get(x, "and")) && !Get(x, "value").Str? && !Get(x, "value").Arr?
  {
    var tt :- NullableText(conv, Get(x, "trigger"));
    var comment :- conv.toText(Coalesce(Get(x, "comment"), Str("")));
    var triggerType := if tt.Some? then Lower(tt.value) else trigger;
    var and := Get(x, "and");
    if Truthy(and) then
      if !and.Arr? then Err(AndNotList)
      else
        var (w', items) := ConjItems(w, and.items);
        Ok((w', Some(Conj(items)), triggerType, comment))
    else
      var (w', p) := ParseNode(w, Get(x, "value"), Some(comment));
      Ok((w', if p.Some? then Some(Single(p.value)) else None, triggerType, comment))
  }

  /** The value, trigger type and comment of one `input` item, before it
      takes its automatic name. */
  function InputPending(conv: Conversions, trigger: string, w0: Work, x: JsVal)
    : (r: Result<(Work, Option<InputValue>, string, string)>)
    ensures !x.Str? && !x.Arr? && !x.Obj? ==> r == Err(BadInputItem)
    ensures r.Ok? ==> Extends(w0, r.value.0) && r.value.0.db == w0.db
    ensures (x.Str? || x.Arr?) ==> r.Ok? && r.value.1.Some? && r.value.2 == trigger && r.value.3 == ""
  {
    var (w, p) := ParseNode(w0, x, Some(""));
    if p.Some? then Ok((w, Some(Single(p.value)), trigger, ""))
    else if !x.Obj? then Err(BadInputItem)
    else
      var pending :- InputObject(conv, trigger, w, x);
      ExtendsTransitive(w0, w, pending.0);
      Ok(pending)
  }

  /** One `input` item: an expression the parser accepts is an input with the
      node's trigger and an empty comment; otherwise it must be an input
      object.  Either way the input takes the next automatic name. */
  function InputOne(conv: Conversions, trigger: string, w0: Work, x: JsVal): (r: Result<(Work, Input)>)
    ensures !x.Str? && !x.Arr? && !x.Obj? ==> r == Err(BadInputItem)
    ensures r.Ok? ==> Extends(w0, r.value.0)
    ensures (x.Str? || x.Arr?) && r.Ok? ==> r.value.1.triggerType == trigger && r.value.1.comment == ""
    ensures r.Ok? ==> r.value.1.name == AutoName(w0.db.fields.index + 1)
    ensures r.Ok? ==> r.value.0.db.fields.index == w0.db.fields.index + 1
  {
    var (w1, value, triggerType, comment) :- InputPending(conv, trigger, w0, x);
    if value.None? then Err(MissingInputValue)
    else
      PushKeepsFieldsOk(w1.db.fields, None, InputField(comment));
      var fs :- Push(w1.db.fields, None, InputField(comment));
      Ok((w1.(db := w1.db.(fields := fs)), Input(AutoName(w1.db.fields.index + 1), value.value, triggerType, comment)))
  }

  function InputItem(conv: Conversions, trigger: string, s: (Work, seq<Input>), x: JsVal)
    : (r: Result<(Work, seq<Input>)>)
    ensures r.Ok? ==> Extends(s.0, r.value.0) && |r.value.1| == |s.1| + 1
  {
    var one :- InputOne(conv, trigger, s.0, x);
    Ok((one.0, s.1 + [one.1]))
  }

  function InputStep(conv: Conversions, trigger: string): ((Work, seq<Input>), JsVal) -> Result<(Work, seq<Input>)>
  {
    (s, x) => InputItem(conv, trigger, s, x)
  }

  function InputStage(conv: Conversions, trigger: string, w: Work, v: JsVal): (r: Result<(Work, seq<Input>)>)
    ensures (!v.Arr? || |v.items| == 0) ==> r == Err(InputListEmpty)
    ensures r.Ok? ==> Extends(w, r.value.0) && |r.value.1| == |v.items| > 0
  {
    if !Truthy(v) || !v.Arr? || |v.items| < 1 then Err(InputListEmpty)
    else
      FoldInputs(conv, trigger, w, v.items);
      Fold(InputStep(conv, trigger), (w, []), v.items)
  }

  lemma {:induction false} FoldInputs(conv: Conversions, trigger: string, w: Work, xs: seq<JsVal>)
    ensures var r := Fold(InputStep(conv, trigger), (w, []), xs);
            r.Ok? ==> Extends(w, r.value.0) && |r.value.1| == |xs|
  {
    if |xs| > 0 {
      FoldInputs(conv, trigger, w, xs[..|xs| - 1]);
      var r := Fold(InputStep(conv, trigger), (w, []), xs[..|xs| - 1]);
      if r.Ok? {
        var r' := InputItem(conv, trigger, r.value, xs[|xs| - 1]);
        if r'.Ok? {
          ExtendsTransitive(w, r.value.0, r'.value.0);
        }
      }
    }
  }

  // `reset`

  /** `conv_rest(item)`: a string or a list, through `parse_IL_expression`. */
  function ResetOperand(w: Work, x: JsVal): (r: Result<(Work, Operand)>)
    ensures r.Ok? <==> x.Str? || x.Arr?
    ensures r.Err? ==> r.error == BadResetItem
    ensures r.Ok? ==> Extends(w, r.value.0) && Some(r.value.1) == ParseNode(w, x, Some("")).1
  {
    if !x.Str? && !x.Arr? then Err(BadResetItem)
    else
      var (w', p) := ParseNode(w, x, Some(""));
      Ok((w', p.value))
  }

  function ResetItem(s: (Work, seq<Operand>), x: JsVal): (r: Result<(Work, seq<Operand>)>)
    ensures r.Ok? ==> Extends(s.0, r.value.0) && |r.value.1| == |s.1| + 1
  {
    var (w, op) :- ResetOperand(s.0, x);
    Ok((w, s.1 + [op]))
  }

  function ResetStep(): ((Work, seq<Operand>), JsVal) -> Result<(Work, seq<Operand>)>
  {
    (s, x) => ResetItem(s, x)
  }

  lemma {:induction false} FoldResets(w: Work, xs: seq<JsVal>)
    ensures var r := Fold(ResetStep(), (w, []), xs);
            r.Ok? ==> Extends(w, r.value.0) && |r.value.1| == |xs|
  {
    if |xs| > 0 {
      FoldResets(w, xs[..|xs| - 1]);
      var r := Fold(ResetStep(), (w, []), xs[..|xs| - 1]);
      if r.Ok? {
        var r' := ResetItem(r.value, xs[|xs| - 1]);
        if r'.Ok? {
          ExtendsTransitive(w, r.value.0, r'.value.0);
        }
      }
    }
  }

  /** Every reset item is accepted exactly when it is a string or a list. */
  lemma {:induction false} ResetsAccepted(w: Work, xs: seq<JsVal>)
    ensures Fold(ResetStep(), (w, []), xs).Ok? <==> forall i :: 0 <= i < |xs| ==> xs[i].Str? || xs[i].Arr?
  {
    if |xs| > 0 {
      var n := |xs| - 1;
      ResetsAccepted(w, xs[..n]);
      if Fold(ResetStep(), (w, []), xs[..n]).Err? {
        var i :| 0 <= i < n && !xs[..n][i].Str? && !xs[..n][i].Arr?;
        assert xs[i] == xs[..n][i];
      } else {
        forall i | 0 <= i < n ensures xs[i].Str? || xs[i].Arr? {
          assert xs[i] == xs[..n][i];
        }
      }
    }
  }

  function ResetStage(w: Work, v: JsVal): (r: Result<(Work, seq<Operand>)>)
    ensures Truthy(v) && !v.Arr? ==> r == Err(ResetNotList)
    ensures r.Ok? ==> Extends(w, r.value.0) && |r.value.1| == |ItemsOf(v)|
  {
    if Truthy(v) && !v.Arr? then Err(ResetNotList)
    else
      FoldResets(w, ItemsOf(v));
      Fold(ResetStep(), (w, []), ItemsOf(v))
  }

  // `output`

  /** An output object: `comment`, `value`, `inversion` (any non-empty text
      inverts) and an optional `reset`, which is converted before a missing
      `value` is noticed. */
  function OutputObject(conv: Conversions, w: Work, x: JsVal)
    : (r: Result<(Work, Option<Operand>, bool, Option<Operand>)>)
    ensures r.Ok? ==> Extends(w, r.value.0)
    ensures r.Ok? ==> (r.value.3.Some? <==> Truthy(Get(x, "reset")))
    ensures r.Ok? ==> (r.value.2 <==>
                         (!Nullish(Get(x, "inversion")) && conv.toText(Get(x, "inversion")).Ok? &&
                          conv.toText(Get(x, "inversion")).value != ""))
  {
    var comment :- conv.toText(Coalesce(Get(x, "comment"), Str("")));
    var inversion :- NullableText(conv, Get(x, "inversion"));
    var inverted := inversion.Some? && inversion.value != "";
    var (w1, op) := ParseNode(w, Get(x, "value"), Some(comment));
    var reset := Get(x, "reset");
    if !Truthy(reset) then Ok((w1, op, inverted, None))
    else
      var rr :- ResetOperand(w1, reset);
      ExtendsTransitive(w, w1, rr.0);
      Ok((rr.0, op, inverted, Some(rr.1)))
  }

  function OutputOf(op: Operand, inverted: bool, reset: Option<Operand>): (o: Output)
    ensures o.op == op && o.reset == reset
    ensures {o.setValue, o.resetValue} == {"TRUE", "FALSE"}
    ensures o.setValue == "FALSE" <==> inverted
  {
    Output(op, if inverted then "FALSE" else "TRUE", if inverted then "TRUE" else "FALSE", reset)
  }

  /** One `output` item: an expression the parser accepts is a plain output;
      otherwise it must be an output object with a usable `value`. */
  function OutputOne(conv: Conversions, w0: Work, x: JsVal): (r: Result<(Work, Output)>)
    ensures !x.Str? && !x.Arr? && !x.Obj? ==> r == Err(BadOutputItem)
    ensures r.Ok? ==> Extends(w0, r.value.0)
    ensures r.Ok? && (x.Str? || x.Arr?) ==> r.value.1.setValue == "TRUE" && r.value.1.reset.None?
    ensures r.Ok? ==> {r.value.1.setValue, r.value.1.resetValue} == {"TRUE", "FALSE"}
  {
    var (w, p) := ParseNode(w0, x, Some(""));
    var pending :-
      if p.Some? then Ok((w, p, false, None))
      else if !x.Obj? then Err(BadOutputItem)
      else OutputObject(conv, w, x);
    var (w1, op, inverted, reset) := pending;
    ExtendsTransitive(w0, w, w1);
    if op.None? then Err(MissingOutputValue)
    else Ok((w1, OutputOf(op.value, inverted, reset)))
  }

  function OutputItem(conv: Conversions, s: (Work, seq<Output>), x: JsVal): (r: Result<(Work, seq<Output>)>)
    ensures r.Ok? ==> Extends(s.0, r.value.0)
    ensures r.Ok? ==> |r.value.1| == |s.1| + 1 && r.value.1[..|s.1|] == s.1
    ensures r.Ok? ==> {r.value.1[|s.1|].setValue, r.value.1[|s.1|].resetValue} == {"TRUE", "FALSE"}
  {
    var one :- OutputOne(conv, s.0, x);
    Ok((one.0, s.1 + [one.1]))
  }

  function OutputStep(conv: Conversions): ((Work, seq<Output>), JsVal) -> Result<(Work, seq<Output>)>
  {
    (s, x) => OutputItem(conv, s, x)
  }

  /** Every output of a successful loop has complementary set and reset values. */
  predicate Complementary(outs: seq<Output>)
  {
    forall i :: 0 <= i < |outs| ==> {outs[i].setValue, outs[i].resetValue} == {"TRUE", "FALSE"}
  }

  lemma {:induction false} FoldOutputs(conv: Conversions, w: Work, xs: seq<JsVal>)
    ensures var r := Fold(OutputStep(conv), (w, []), xs);
            r.Ok? ==> Extends(w, r.value.0) && |r.value.1| == |xs| && Complementary(r.value.1)
  {
    if |xs| > 0 {
      FoldOutputs(conv, w, xs[..|xs| - 1]);
      var r := Fold(OutputStep(conv), (w, []), xs[..|xs| - 1]);
      if r.Ok? {
        var r' := OutputItem(conv, r.value, xs[|xs| - 1]);
        if r'.Ok? {
          ExtendsTransitive(w, r.value.0, r'.value.0);
          var outs := r'.value.1;
          assert outs[..|r.value.1|] == r.value.1;
          forall i | 0 <= i < |outs| ensures {outs[i].setValue, outs[i].resetValue} == {"TRUE", "FALSE"} {
            if i < |r.value.1| {
              assert outs[i] == r.value.1[i];
            }
          }
        }
      }
    }
  }

  function OutputStage(conv: Conversions, w: Work, v: JsVal): (r: Result<(Work, seq<Output>)>)
    ensures Truthy(v) && !v.Arr? ==> r == Err(OutputNotList)
    ensures r.Ok? ==> Extends(w, r.value.0) && |r.value.1| == |ItemsOf(v)| && Complementary(r.value.1)
  {
    if Truthy(v) && !v.Arr? then Err(OutputNotList)
    else
      FoldOutputs(conv, w, ItemsOf(v));
      Fold(OutputStep(conv), (w, []), ItemsOf(v))
  }

  // The whole node

  /** The enable, header, data, input, reset and output stages of a node, in
      the order the converter runs them, on the DB the node names. */
  function NodeBody(conv: Conversions, w0: Work, node: JsVal): (r: Result<(Work, Interlock)>)
    ensures r.Ok? ==> Extends(w0, r.value.0)
    ensures r.Ok? ==> Get(node, "input").Arr? && |r.value.1.inputs| == |Get(node, "input").items| > 0
    ensures r.Ok? ==> |r.value.1.outputs| == |ItemsOf(Get(node, "output"))| && Complementary(r.value.1.outputs)
    ensures r.Ok? ==> |r.value.1.resets| == |ItemsOf(Get(node, "reset"))|
  {
    var w1 :- EnableStage(conv, w0, node);
    var h :- HeaderOf(conv, node);
    var w2 :- DataStage(conv, w1, Get(node, "data"));
    var ins :- InputStage(conv, h.trigger, w2, Get(node, "input"));
    var rs :- ResetStage(ins.0, Get(node, "reset"));
    var outs :- OutputStage(conv, rs.0, Get(node, "output"));
    ExtendsTransitive(w0, w1, w2);
    ExtendsTransitive(w0, w2, ins.0);
    ExtendsTransitive(w0, ins.0, rs.0);
    ExtendsTransitive(w0, rs.0, outs.0);
    Ok((outs.0, Interlock(h.name, h.extraCode, h.comment, ins.1, rs.1, outs.1)))
  }

  /** One node of `initialize_list`: find or create its DB, run the stages,
      and push the interlock onto that DB. */
  function NodeStep(conv: Conversions, a: AreaState, node: JsVal): (r: Result<AreaState>)
    ensures !Truthy(Get(node, "DB")) ==> r == Err(InterlockWithoutDb)
    ensures r.Ok? ==> |a.dbs| <= |r.value.dbs| <= |a.dbs| + 1 && a.queue <= r.value.queue
    ensures r.Ok? ==> Get(node, "input").Arr? && |Get(node, "input").items| > 0
  {
    var dbv := Get(node, "DB");
    if !Truthy(dbv) then Err(InterlockWithoutDb)
    else
      var found :- GetOrCreate(a, dbv);
      var (a1, d) := found;
      var body :- NodeBody(conv, Work(a1.dbs[d], a1.queue), node);
      var (w, il) := body;
      Ok(AreaState(a1.dbs[d := w.db.(interlocks := w.db.interlocks + [il])], w.queue))
  }

  /** The DB a node works on, found or created: the other DBs keep what
      `Valid` says of them, and its own namespace is well formed. */
  lemma FoundDbOk(a: AreaState, v: JsVal)
    requires Valid(a) && GetOrCreate(a, v).Ok?
    ensures var (a1, d) := GetOrCreate(a, v).value;
            && UniqueNames(a1.dbs) && FieldsOk(a1.dbs[d].fields)
            && forall i :: 0 <= i < |a1.dbs| && i != d ==> DbOk(a1.dbs[i])
  {
    var (a1, d) := GetOrCreate(a, v).value;
    InitialFieldsOk();
    forall i | 0 <= i < |a1.dbs| && i != d ensures DbOk(a1.dbs[i]) {
      assert a1.dbs[i] == a1.dbs[..|a.dbs|][i];
    }
    if d < |a.dbs| {
      assert DbOk(a.dbs[d]);
    }
  }

  /** Replacing one DB by a valid one of the same name keeps the set valid. */
  lemma ReplaceDbKeepsValid(dbs: seq<Db>, d: nat, db: Db, queue: seq<Request>)
    requires d < |dbs| && UniqueNames(dbs) && db.name == dbs[d].name && DbOk(db)
    requires forall i :: 0 <= i < |dbs| && i != d ==> DbOk(dbs[i])
    ensures Valid(AreaState(dbs[d := db], queue))
  {
    var dbs' := dbs[d := db];
    forall i, j | 0 <= i < j < |dbs'| ensures dbs'[i].name != dbs'[j].name {
      assert dbs'[i].name == dbs[i].name && dbs'[j].name == dbs[j].name;
    }
  }

  /** Every node keeps the DB set valid. */
  lemma NodeStepKeepsValid(conv: Conversions, a: AreaState, node: JsVal)
    requires Valid(a)
    ensures NodeStep(conv, a, node).Ok? ==> Valid(NodeStep(conv, a, node).value)
  {
    var r := NodeStep(conv, a, node);
    if r.Ok? {
      FoundDbOk(a, Get(node, "DB"));
      var (a1, d) := GetOrCreate(a, Get(node, "DB")).value;
      var w0 := Work(a1.dbs[d], a1.queue);
      var (w, il) := NodeBody(conv, w0, node).value;
      ReplaceDbKeepsValid(a1.dbs, d, w.db.(interlocks := w.db.interlocks + [il]), w.queue);
    }
  }

  /** What pass 1 keeps true of every DB: names are unique, each namespace is
      well formed, and each DB has the interlock that created it. */
  predicate DbOk(db: Db)
  {
    FieldsOk(db.fields) && |db.interlocks| > 0
  }

  predicate Valid(a: AreaState)
  {
    UniqueNames(a.dbs) && forall i :: 0 <= i < |a.dbs| ==> DbOk(a.dbs[i])
  }

  function NodeStepFn(conv: Conversions): (AreaState, JsVal) -> Result<AreaState>
  {
    (a, node) => NodeStep(conv, a, node)
  }

  /** `initialize_list`: every node in order, from an empty DB set. */
  function InitializeList(conv: Conversions, list: seq<JsVal>): Result<AreaState>
  {
    Fold(NodeStepFn(conv), EMPTY, list)
  }

  lemma InitializeListValid(conv: Conversions, list: seq<JsVal>)
    ensures InitializeList(conv, list).Ok? ==> Valid(InitializeList(conv, list).value)
  {
    forall a, node | Valid(a) && NodeStepFn(conv)(a, node).Ok?
      ensures Valid(NodeStepFn(conv)(a, node).value)
    {
      NodeStepKeepsValid(conv, a, node);
    }
    FoldKeeps(NodeStepFn(conv), (a: AreaState) => Valid(a), EMPTY, list);
  }

  /** A second node with `enable` for a DB that already has one is rejected. */
  lemma SecondEnableRejected(conv: Conversions, a: AreaState, node: JsVal, i: nat)
    requires UniqueNames(a.dbs) && i < |a.dbs|
    requires Truthy(Get(node, "DB")) && DbNameOf(Get(node, "DB")) == Ok(a.dbs[i].name)
    requires a.dbs[i].enableReadable && Truthy(Get(node, "enable"))
    ensures NodeStep(conv, a, node) == Err(DuplicateEnable)
  {
  }

  /** A second `$enable` for the same DB is rejected. */
  lemma SecondEnableInitRejected(conv: Conversions, a: AreaState, node: JsVal, i: nat)
    requires UniqueNames(a.dbs) && i < |a.dbs|
    requires Truthy(Get(node, "DB")) && DbNameOf(Get(node, "DB")) == Ok(a.dbs[i].name)
    requires a.dbs[i].enableInitialized && !a.dbs[i].enableReadable
    requires NullableBool(conv, Get(node, "$enable")).Ok? && !Nullish(Get(node, "$enable"))
    ensures NodeStep(conv, a, node) == Err(DuplicateEnableInit)
  {
  }

  // ---------------------------------------------------------------------
  // The converter's loops, over the area's mutable state

  lemma SetTwice<T>(s: seq<T>, i: nat, a: T, b: T)
    requires i < |s|
    ensures s[i := a][i := b] == s[i := b]
  {
  }

  /** A method's outcome agrees with the failure or success of its specification. */
  predicate Agrees<T>(r: Outcome, s: Result<T>)
  {
    (r.Pass? <==> s.Ok?) && (r.Fail? ==> s.Err? && r.error == s.error)
  }

  predicate AgreesOn<T, U>(r: Result<T>, s: Result<U>)
  {
    (r.Ok? <==> s.Ok?) && (r.Err? ==> s.Err? && r.error == s.error)
  }

  /** The interlock area during pass 1: `area.list` (the DB set, where a DB
      record and its `fields` object are updated in place) and the deferred
      expressions requested so far. */
  class InterlockArea {
    const conv: Conversions
    var dbs: seq<Db>
    var queue: seq<Request>

    function Snapshot(): AreaState
      reads this
    {
      AreaState(dbs, queue)
    }

    /** DB `d` and the queue, as a stage sees them. */
    function WorkAt(d: nat): Work
      requires d < |dbs|
      reads this
    {
      Work(dbs[d], queue)
    }

    /** The area holds `w` at DB `d`, every other DB as in `before`. */
    predicate Holds(d: nat, w: Work, before: seq<Db>)
      reads this
    {
      d < |before| && dbs == before[d := w.db] && queue == w.queue
    }

    constructor (conv: Conversions)
      ensures this.conv == conv && Snapshot() == EMPTY
    {
      this.conv := conv;
      dbs, queue := [], [];
    }

    /** `make_s7_expression(...)`: a request whose result pass 2 reads by ticket. */
    method Defer(source: JsVal, p: Purpose) returns (t: nat)
      modifies this
      ensures dbs == old(dbs) && queue == old(queue) + [Request(source, p)] && t == |old(queue)|
    {
      t := |queue|;
      queue := queue + [Request(source, p)];
    }

    /** `get_or_create` */
    method GetOrCreateDb(v: JsVal) returns (r: Result<nat>)
      modifies this
      ensures var s := GetOrCreate(old(Snapshot()), v);
              AgreesOn(r, s) && (r.Ok? ==> s.value == (Snapshot(), r.value))
    {
      var n := DbNameOf(v);
      if n.Err? {
        return Err(n.error);
      }
      var name := n.value;
      var i := 0;
      while i < |dbs|
        invariant 0 <= i <= |dbs| && dbs == old(dbs) && queue == old(queue)
        invariant forall j :: 0 <= j < i ==> dbs[j].name != name
      {
        if dbs[i].name == name {
          return Ok(i);
        }
        i := i + 1;
      }
      var t := Defer(Str(name), DbSymbol);
      dbs := dbs + [NewDb(name, t)];
      r := Ok(|dbs| - 1);
    }

    /** `fields.push(item)` on DB `d` */
    method PushField(d: nat, name: Option<string>, kind: FieldKind) returns (r: Outcome)
      requires d < |dbs|
      modifies this
      ensures var s := Push(old(dbs)[d].fields, name, kind);
              Agrees(r, s) && queue == old(queue) &&
              (r.Pass? ==> dbs == old(dbs)[d := old(dbs)[d].(fields := s.value)])
    {
      var fs := dbs[d].fields;
      var index := fs.index;
      if name.None? {
        index := index + 1;
      }
      var n := if name.Some? then name.value else AutoName(index);
      if Taken(fs, n) {
        return Fail(DuplicateField);
      }
      dbs := dbs[d := dbs[d].(fields := Fields(fs.enableInit, fs.enableRead, fs.entries + [Field(n, kind)], index))];
      r := Pass;
    }

    method PushDataField(d: nat, name: string, kind: FieldKind) returns (r: Outcome)
      requires d < |dbs| && kind.DataField?
      modifies this
      ensures var s := PushData(old(WorkAt(d)), name, kind);
              Agrees(r, s) && (r.Pass? ==> Holds(d, s.value, old(dbs)))
    {
      r := PushField(d, Some(name), kind);
      if r.Pass? {
        dbs := dbs[d := dbs[d].(dataDict := dbs[d].dataDict[name := kind.read])];
      }
    }

    /** `enable` and `$enable` of a node */
    method AddEnable(d: nat, node: JsVal) returns (r: Outcome)
      requires d < |dbs|
      modifies this
      ensures var s := EnableStage(conv, old(WorkAt(d)), node);
              Agrees(r, s) && (r.Pass? ==> Holds(d, s.value, old(dbs)))
    {
      var enable := Get(node, "enable");
      if Truthy(enable) {
        if dbs[d].enableReadable {
          return Fail(DuplicateEnable);
        }
        var t := Defer(enable, EnableRead);
        dbs := dbs[d := dbs[d].(fields := dbs[d].fields.(enableRead := Some(t)), enableReadable := true)];
      }
      var init := NullableBool(conv, Get(node, "$enable"));
      if init.Err? {
        return Fail(init.error);
      }
      if init.value.Some? {
        if dbs[d].enableInitialized {
          return Fail(DuplicateEnableInit);
        }
        var text := if init.value.value then "TRUE" else "FALSE";
        dbs := dbs[d := dbs[d].(enableInitialized := true, fields := dbs[d].fields.(enableInit := text))];
      }
      r := Pass;
    }

    /** One `data` item */
    method AddDataItem(d: nat, x: JsVal) returns (r: Outcome)
      requires d < |dbs|
      modifies this
      ensures var s := DataItem(conv, old(WorkAt(d)), x);
              Agrees(r, s) && (r.Pass? ==> Holds(d, s.value, old(dbs)))
    {
      match x
      case Str(s) =>
        r := PushDataField(d, s, DataField("BOOL", "", None, None));
      case Obj(_) =>
        var name := conv.toText(Get(x, "name"));
        if name.Err? {
          return Fail(name.error);
        }
        var comment := conv.toText(Coalesce(Get(x, "comment"), Str("")));
        if comment.Err? {
          return Fail(comment.error);
        }
        var t := NullableText(conv, Get(x, "type"));
        if t.Err? {
          return Fail(t.error);
        }
        var dtype := if t.value.Some? && conv.isCommonType(t.value.value) then t.value.value else "BOOL";
        var rd := Defer(Get(x, "read"), DataRead(dtype, comment.value));
        var wr := Defer(Get(x, "write"), DataWrite(dtype, comment.value));
        r := PushDataField(d, name.value, DataField(dtype, comment.value, Some(rd), Some(wr)));
      case _ =>
        r := Fail(BadDataItem);
    }

    /** The `data` list of a node */
    method AddData(d: nat, v: JsVal) returns (r: Outcome)
      requires d < |dbs|
      modifies this
      ensures var s := DataStage(conv, old(WorkAt(d)), v);
              Agrees(r, s) && (r.Pass? ==> Holds(d, s.value, old(dbs)))
    {
      if Truthy(v) && !v.Arr? {
        return Fail(DataNotList);
      }
      var items := ItemsOf(v);
      ghost var w0 := WorkAt(d);
      var i := 0;
      while i < |items|
        invariant 0 <= i <= |items| && d < |dbs|
        invariant Fold(DataStep(conv), w0, items[..i]) == Ok(WorkAt(d))
        invariant Holds(d, WorkAt(d), old(dbs))
      {
        FoldSnoc(DataStep(conv), w0, items, i);
        var ri := AddDataItem(d, items[i]);
        if ri.Fail? {
          FoldStops(DataStep(conv), w0, items, i + 1);
          return ri;
        }
        i := i + 1;
      }
      assert items[..i] == items;
      r := Pass;
    }

    /** `parse_IL_expression` against DB `d` */
    method Parse(d: nat, x: JsVal, comment: Option<string>) returns (op: Option<Operand>)
      requires d < |dbs|
      modifies this
      ensures var s := ParseNode(old(WorkAt(d)), x, comment);
              op == s.1 && Holds(d, s.0, old(dbs))
    {
      if x.Str? && x.s in dbs[d].dataDict {
        return Some(Ref(x.s, DataRef(dbs[d].name, x.s), dbs[d].dataDict[x.s]));
      }
      if x.Str? || x.Arr? {
        var t := Defer(x, BoolExpr(comment));
        return Some(Ticket(t));
      }
      return None;
    }

    /** The items of an `and` list */
    method ParseAll(d: nat, xs: seq<JsVal>) returns (items: seq<Option<Operand>>)
      requires d < |dbs|
      modifies this
      ensures var s := ConjItems(old(WorkAt(d)), xs);
              items == s.1 && Holds(d, s.0, old(dbs))
    {
      ghost var w0 := WorkAt(d);
      items := [];
      var i := 0;
      while i < |xs|
        invariant 0 <= i <= |xs| && d < |dbs|
        invariant ConjItems(w0, xs[..i]) == (WorkAt(d), items)
        invariant Holds(d, WorkAt(d), old(dbs))
      {
        ConjItemsSnoc(w0, xs, i);
        var p := Parse(d, xs[i], None);
        items := items + [p];
        i := i + 1;
      }
      assert xs[..i] == xs;
    }

    /** An input object */
    method AddInputObject(d: nat, trigger: string, x: JsVal) returns (r: Result<(Option<InputValue>, string, string)>)
      requires d < |dbs|
      modifies this
      ensures var s := InputObject(conv, trigger, old(WorkAt(d)), x);
              AgreesOn(r, s) &&
              (r.Ok? ==> Holds(d, s.value.0, old(dbs)) && r.value == (s.value.1, s.value.2, s.value.3))
    {
      var tt := NullableText(conv, Get(x, "trigger"));
      if tt.Err? {
        return Err(tt.error);
      }
      var comment := conv.toText(Coalesce(Get(x, "comment"), Str("")));
      if comment.Err? {
        return Err(comment.error);
      }
      var triggerType := if tt.value.Some? then Lower(tt.value.value) else trigger;
      var and := Get(x, "and");
      if Truthy(and) {
        if !and.Arr? {
          return Err(AndNotList);
        }
        var items := ParseAll(d, and.items);
        r := Ok((Some(Conj(items)), triggerType, comment.value));
      } else {
        var p := Parse(d, Get(x, "value"), Some(comment.value));
        r := Ok((if p.Some? then Some(Single(p.value)) else None, triggerType, comment.value));
      }
    }

    /** The value, trigger type and comment of one `input` item */
    method AddInputPending(d: nat, trigger: string, x: JsVal) returns (r: Result<(Option<InputValue>, string, string)>)
      requires d < |dbs|
      modifies this
      ensures var s := InputPending(conv, trigger, old(WorkAt(d)), x);
              AgreesOn(r, s) &&
              (r.Ok? ==> Holds(d, s.value.0, old(dbs)) && r.value == (s.value.1, s.value.2, s.value.3))
    {
      var p := Parse(d, x, Some(""));
      if p.Some? {
        return Ok((Some(Single(p.value)), trigger, ""));
      } else if !x.Obj? {
        return Err(BadInputItem);
      }
      r := AddInputObject(d, trigger, x);
    }

    /** One `input` item */
    method AddInput(d: nat, trigger: string, x: JsVal) returns (r: Result<Input>)
      requires d < |dbs|
      modifies this
      ensures var s := InputOne(conv, trigger, old(WorkAt(d)), x);
              AgreesOn(r, s) && (r.Ok? ==> Holds(d, s.value.0, old(dbs)) && r.value == s.value.1)
    {
      var pending := AddInputPending(d, trigger, x);
      if pending.Err? {
        return Err(pending.error);
      }
      var (value, triggerType, comment) := pending.value;
      if value.None? {
        return Err(MissingInputValue);
      }
      var name := AutoName(dbs[d].fields.index + 1);
      var pushed := PushField(d, None, InputField(comment));
      if pushed.Fail? {
        return Err(pushed.error);
      }
      r := Ok(Input(name, value.value, triggerType, comment));
    }

    /** The `input` list of a node */
    method AddInputs(d: nat, trigger: string, v: JsVal) returns (r: Result<seq<Input>>)
      requires d < |dbs|
      modifies this
      ensures var s := InputStage(conv, trigger, old(WorkAt(d)), v);
              AgreesOn(r, s) && (r.Ok? ==> Holds(d, s.value.0, old(dbs)) && r.value == s.value.1)
    {
      if !Truthy(v) || !v.Arr? || |v.items| < 1 {
        return Err(InputListEmpty);
      }
      var items := v.items;
      ghost var w0 := WorkAt(d);
      var inputs := [];
      var i := 0;
      while i < |items|
        invariant 0 <= i <= |items| && d < |dbs|
        invariant Fold(InputStep(conv, trigger), (w0, []), items[..i]) == Ok((WorkAt(d), inputs))
        invariant Holds(d, WorkAt(d), old(dbs))
      {
        FoldSnoc(InputStep(conv, trigger), (w0, []), items, i);
        var one := AddInput(d, trigger, items[i]);
        if one.Err? {
          FoldStops(InputStep(conv, trigger), (w0, []), items, i + 1);
          return Err(one.error);
        }
        inputs := inputs + [one.value];
        i := i + 1;
      }
      assert items[..i] == items;
      r := Ok(inputs);
    }

    /** `conv_rest` */
    method AddReset(d: nat, x: JsVal) returns (r: Result<Operand>)
      requires d < |dbs|
      modifies this
      ensures var s := ResetOperand(old(WorkAt(d)), x);
              AgreesOn(r, s) && (r.Ok? ==> Holds(d, s.value.0, old(dbs)) && r.value == s.value.1)
    {
      if !x.Str? && !x.Arr? {
        return Err(BadResetItem);
      }
      var p := Parse(d, x, Some(""));
      r := Ok(p.value);
    }

    /** The `reset` list of a node */
    method AddResets(d: nat, v: JsVal) returns (r: Result<seq<Operand>>)
      requires d < |dbs|
      modifies this
      ensures var s := ResetStage(old(WorkAt(d)), v);
              AgreesOn(r, s) && (r.Ok? ==> Holds(d, s.value.0, old(dbs)) && r.value == s.value.1)
    {
      if Truthy(v) && !v.Arr? {
        return Err(ResetNotList);
      }
      var items := ItemsOf(v);
      ghost var w0 := WorkAt(d);
      var resets := [];
      var i := 0;
      while i < |items|
        invariant 0 <= i <= |items| && d < |dbs|
        invariant Fold(ResetStep(), (w0, []), items[..i]) == Ok((WorkAt(d), resets))
        invariant Holds(d, WorkAt(d), old(dbs))
      {
        FoldSnoc(ResetStep(), (w0, []), items, i);
        var one := AddReset(d, items[i]);
        if one.Err? {
          FoldStops(ResetStep(), (w0, []), items, i + 1);
          return Err(one.error);
        }
        resets := resets + [one.value];
        i := i + 1;
      }
      assert items[..i] == items;
      r := Ok(resets);
    }

    /** An output object */
    method AddOutputObject(d: nat, x: JsVal) returns (r: Result<(Option<Operand>, bool, Option<Operand>)>)
      requires d < |dbs|
      modifies this
      ensures var s := OutputObject(conv, old(WorkAt(d)), x);
              AgreesOn(r, s) &&
              (r.Ok? ==> Holds(d, s.value.0, old(dbs)) && r.value == (s.value.1, s.value.2, s.value.3))
    {
      var comment := conv.toText(Coalesce(Get(x, "comment"), Str("")));
      if comment.Err? {
        return Err(comment.error);
      }
      var inversion := NullableText(conv, Get(x, "inversion"));
      if inversion.Err? {
        return Err(inversion.error);
      }
      var inverted := inversion.value.Some? && inversion.value.value != "";
      var op := Parse(d, Get(x, "value"), Some(comment.value));
      var reset := Get(x, "reset");
      if !Truthy(reset) {
        return Ok((op, inverted, None));
      }
      var rr := AddReset(d, reset);
      if rr.Err? {
        return Err(rr.error);
      }
      r := Ok((op, inverted, Some(rr.value)));
    }

    /** One `output` item */
    method AddOutput(d: nat, x: JsVal) returns (r: Result<Output>)
      requires d < |dbs|
      modifies this
      ensures var s := OutputOne(conv, old(WorkAt(d)), x);
              AgreesOn(r, s) && (r.Ok? ==> Holds(d, s.value.0, old(dbs)) && r.value == s.value.1)
    {
      var p := Parse(d, x, Some(""));
      var op: Option<Operand>, inverted: bool, reset: Option<Operand>;
      if p.Some? {
        op, inverted, reset := p, false, None;
      } else if !x.Obj? {
        return Err(BadOutputItem);
      } else {
        var o := AddOutputObject(d, x);
        if o.Err? {
          return Err(o.error);
        }
        op, inverted, reset := o.value.0, o.value.1, o.value.2;
      }
      if op.None? {
        return Err(MissingOutputValue);
      }
      r := Ok(OutputOf(op.value, inverted, reset));
    }

    /** The `output` list of a node */
    method AddOutputs(d: nat, v: JsVal) returns (r: Result<seq<Output>>)
      requires d < |dbs|
      modifies this
      ensures var s := OutputStage(conv, old(WorkAt(d)), v);
              AgreesOn(r, s) && (r.Ok? ==> Holds(d, s.value.0, old(dbs)) && r.value == s.value.1)
    {
      if Truthy(v) && !v.Arr? {
        return Err(OutputNotList);
      }
      r := AddOutputItems(d, ItemsOf(v));
    }

    /** The loop over the items of `output`. */
    method AddOutputItems(d: nat, items: seq<JsVal>) returns (r: Result<seq<Output>>)
      requires d < |dbs|
      modifies this
      ensures var s := Fold(OutputStep(conv), (old(WorkAt(d)), []), items);
              AgreesOn(r, s) && (r.Ok? ==> Holds(d, s.value.0, old(dbs)) && r.value == s.value.1)
    {
      ghost var w0 := WorkAt(d);
      var outputs := [];
      var i := 0;
      while i < |items|
        invariant 0 <= i <= |items| && d < |dbs|
        invariant Fold(OutputStep(conv), (w0, []), items[..i]) == Ok((WorkAt(d), outputs))
        invariant Holds(d, WorkAt(d), old(dbs))
      {
        FoldSnoc(OutputStep(conv), (w0, []), items, i);
        ghost var wi := WorkAt(d);
        var one := AddOutput(d, items[i]);
        if one.Err? {
          FoldStops(OutputStep(conv), (w0, []), items, i + 1);
          return Err(one.error);
        }
        SetTwice(old(dbs), d, wi.db, WorkAt(d).db);
        outputs := outputs + [one.value];
        i := i + 1;
      }
      assert items[..i] == items;
      r := Ok(outputs);
    }

    /** The stages of one node on DB `d` */
    method RunStages(d: nat, node: JsVal) returns (r: Result<Interlock>)
      requires d < |dbs|
      modifies this
      ensures var s := NodeBody(conv, old(WorkAt(d)), node);
              AgreesOn(r, s) && (r.Ok? ==> Holds(d, s.value.0, old(dbs)) && r.value == s.value.1)
    {
      ghost var before, w0 := dbs, WorkAt(d);
      var e := AddEnable(d, node);
      if e.Fail? {
        return Err(e.error);
      }
      ghost var w1 := EnableStage(conv, w0, node).value;
      var h := HeaderOf(conv, node);
      if h.Err? {
        return Err(h.error);
      }
      var dt := AddData(d, Get(node, "data"));
      if dt.Fail? {
        return Err(dt.error);
      }
      ghost var w2 := DataStage(conv, w1, Get(node, "data")).value;
      SetTwice(before, d, w1.db, w2.db);
      var ins := AddInputs(d, h.value.trigger, Get(node, "input"));
      if ins.Err? {
        return Err(ins.error);
      }
      ghost var w3 := InputStage(conv, h.value.trigger, w2, Get(node, "input")).value.0;
      SetTwice(before, d, w2.db, w3.db);
      var rs := AddResets(d, Get(node, "reset"));
      if rs.Err? {
        return Err(rs.error);
      }
      ghost var w4 := ResetStage(w3, Get(node, "reset")).value.0;
      SetTwice(before, d, w3.db, w4.db);
      var outs := AddOutputs(d, Get(node, "output"));
      if outs.Err? {
        return Err(outs.error);
      }
      ghost var w5 := OutputStage(conv, w4, Get(node, "output")).value.0;
      SetTwice(before, d, w4.db, w5.db);
      r := Ok(Interlock(h.value.name, h.value.extraCode, h.value.comment, ins.value, rs.value, outs.value));
    }

    /** One node of `initialize_list` */
    method AddNode(node: JsVal) returns (r: Outcome)
      modifies this
      ensures var s := NodeStep(conv, old(Snapshot()), node);
              Agrees(r, s) && (r.Pass? ==> Snapshot() == s.value)
    {
      var dbv := Get(node, "DB");
      if !Truthy(dbv) {
        return Fail(InterlockWithoutDb);
      }
      var found := GetOrCreateDb(dbv);
      if found.Err? {
        return Fail(found.error);
      }
      var d := found.value;
      var il := RunStages(d, node);
      if il.Err? {
        return Fail(il.error);
      }
      dbs := dbs[d := dbs[d].(interlocks := dbs[d].interlocks + [il.value])];
      r := Pass;
    }

    /** `initialize_list`: a fresh DB set, filled node by node. */
    method Initialize(list: seq<JsVal>) returns (r: Outcome)
      modifies this
      ensures var s := InitializeList(conv, list);
              Agrees(r, s) && (r.Pass? ==> Snapshot() == s.value && Valid(Snapshot()))
    {
      dbs, queue := [], [];
      var i := 0;
      while i < |list|
        invariant 0 <= i <= |list|
        invariant Fold(NodeStepFn(conv), EMPTY, list[..i]) == Ok(Snapshot())
      {
        FoldSnoc(NodeStepFn(conv), EMPTY, list, i);
        var ri := AddNode(list[i]);
        if ri.Fail? {
          FoldStops(NodeStepFn(conv), EMPTY, list, i + 1);
          return ri;
        }
        i := i + 1;
      }
      assert list[..i] == list;
      InitializeListValid(conv, list);
      r := Pass;
    }
  }
}

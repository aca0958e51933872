/** Pass 2 of the interlock converter (`build_list`).  Once every deferred
    expression of pass 1 has been resolved, each DB gets its comment, its
    field declarations and the statements that copy fields from and to their
    `read`/`write` expressions, and each interlock gets its input triggers,
    edge followers and resettable flags. */
module InterlockBuild {
  import opened Js
  import opened Seqs
  import opened InterlockConverter

  /** The resolved deferred expressions, indexed by the tickets pass 1 handed
      out; a ticket the resolver left undefined reads as `None`. */
  type Resolution = seq<Option<S7Expr>>

  function Resolve(res: Resolution, t: Option<nat>): Option<S7Expr>
  {
    if t.Some? && t.value < |res| then res[t.value] else None
  }

  // ---------------------------------------------------------------------
  // `Array.prototype.map` and `forEach` over a callback that may throw

  /** The callback applied to every element in order; the first element it
      rejects decides the error. */
  function MapResult<X, Y>(f: X -> Result<Y>, xs: seq<X>): Result<seq<Y>>
  {
    if |xs| == 0 then Ok([])
    else
      var init :- MapResult(f, xs[..|xs| - 1]);
      var y :- f(xs[|xs| - 1]);
      Ok(init + [y])
  }

  /** `MapResult` succeeds exactly when the callback accepts every element,
      and then holds the callback's results in order; otherwise the error is
      that of the first element the callback rejects. */
  lemma {:induction false} MapResultSpec<X, Y>(f: X -> Result<Y>, xs: seq<X>)
    ensures var r := MapResult(f, xs);
      (r.Ok? <==> forall i :: 0 <= i < |xs| ==> f(xs[i]).Ok?)
      && (r.Ok? ==> |r.value| == |xs| && forall i :: 0 <= i < |xs| ==> f(xs[i]) == Ok(r.value[i]))
      && (r.Err? ==> exists i :: 0 <= i < |xs| && f(xs[i]) == Err(r.error) && forall j :: 0 <= j < i ==> f(xs[j]).Ok?)
  {
    if |xs| > 0 {
      var init := xs[..|xs| - 1];
      MapResultSpec(f, init);
      assert forall i :: 0 <= i < |init| ==> init[i] == xs[i];
    }
  }

  /** An error no element gives is not the error of the whole list. */
  lemma {:induction false} MapResultAvoids<X, Y>(f: X -> Result<Y>, xs: seq<X>, bad: Error)
    requires forall i :: 0 <= i < |xs| ==> f(xs[i]) != Err(bad)
    ensures MapResult(f, xs) != Err(bad)
  {
    if |xs| > 0 {
      var init := xs[..|xs| - 1];
      assert forall i :: 0 <= i < |init| ==> init[i] == xs[i];
      MapResultAvoids(f, init, bad);
    }
  }

  lemma MapResultSnoc<X, Y>(f: X -> Result<Y>, xs: seq<X>, i: nat, acc: seq<Y>)
    requires i < |xs| && MapResult(f, xs[..i]) == Ok(acc)
    ensures f(xs[i]).Ok? ==> MapResult(f, xs[..i + 1]) == Ok(acc + [f(xs[i]).value])
    ensures f(xs[i]).Err? ==> MapResult(f, xs) == Err(f(xs[i]).error)
  {
    assert xs[..i + 1][..i] == xs[..i];
    if f(xs[i]).Err? {
      MapResultSpec(f, xs[..i]);
      MapResultSpec(f, xs);
      var e := f(xs[i]).error;
      assert forall j :: 0 <= j < i ==> f(xs[..i][j]).Ok?;
      assert forall j :: 0 <= j < i ==> f(xs[j]).Ok? by {
        forall j | 0 <= j < i ensures f(xs[j]).Ok? {
          assert xs[..i][j] == xs[j];
        }
      }
      var r := MapResult(f, xs);
      assert r.Err?;
      var k :| 0 <= k < |xs| && f(xs[k]) == Err(r.error) && forall j :: 0 <= j < k ==> f(xs[j]).Ok?;
      assert k == i;
    }
  }

  /** `Array.prototype.join(sep)` over strings. */
  function Join(parts: seq<string>, sep: string): string
  {
    if |parts| == 0 then ""
    else if |parts| == 1 then parts[0]
    else Join(parts[..|parts| - 1], sep) + sep + parts[|parts| - 1]
  }

  predicate StartsWith(s: string, t: string)
  {
    |t| <= |s| && s[..|t|] == t
  }

  predicate EndsWith(s: string, t: string)
  {
    |t| <= |s| && s[|s| - |t|..] == t
  }

  lemma ConcatStartsEnds(a: string, b: string)
    ensures StartsWith(a + b, a) && EndsWith(a + b, b)
  {
    assert (a + b)[..|a|] == a;
    assert (a + b)[|a + b| - |b|..] == b;
  }

  // ---------------------------------------------------------------------
  // Fields: declarations and read/write assignments

  const S7_M_C := "{S7_m_c := 'true'}"

  /** A field after pass 2.  Only `enable` and the `data` items carry a
      declaration; an input entry occupies its name and nothing else. */
  datatype BuiltField = BuiltField(
    name: string, declaration: Option<string>,
    assignRead: Option<string>, assignWrite: Option<string>, comment: string)

  /** `name {S7_m_c := 'true'} : type[ := init] ;` */
  function Declaration(name: string, dtype: string, init: string): (r: string)
    ensures StartsWith(r, name + " " + S7_M_C + " : " + dtype)
    ensures EndsWith(r, (if init != "" then " := " + init else "") + " ;")
    ensures |r| == |name + " " + S7_M_C + " : " + dtype| + |(if init != "" then " := " + init else "") + " ;"|
  {
    var head := name + " " + S7_M_C + " : " + dtype;
    var tail := (if init != "" then " := " + init else "") + " ;";
    assert head + (if init != "" then " := " + init else "") + " ;" == head + tail;
    ConcatStartsEnds(head, tail);
    head + tail
  }

  /** `"DB".name := read;`, when the read expression resolved. */
  function AssignRead(db: string, name: string, e: Option<S7Expr>): (r: Option<string>)
    ensures r.Some? <==> e.Some?
    ensures e.Some? ==> StartsWith(r.value, DataRef(db, name) + " := ")
    ensures e.Some? ==> EndsWith(r.value, e.value.value + ";")
    ensures e.Some? ==> |r.value| == |DataRef(db, name) + " := "| + |e.value.value + ";"|
  {
    if e.Some? then
      ConcatStartsEnds(DataRef(db, name) + " := ", e.value.value + ";");
      assert DataRef(db, name) + " := " + e.value.value + ";" == (DataRef(db, name) + " := ") + (e.value.value + ";");
      Some(DataRef(db, name) + " := " + e.value.value + ";")
    else None
  }

  /** `write := "DB".name;`, when the write expression resolved. */
  function AssignWrite(db: string, name: string, e: Option<S7Expr>): (r: Option<string>)
    ensures r.Some? <==> e.Some?
    ensures e.Some? ==> StartsWith(r.value, e.value.value)
    ensures e.Some? ==> EndsWith(r.value, " := " + DataRef(db, name) + ";")
    ensures e.Some? ==> |r.value| == |e.value.value| + |" := " + DataRef(db, name) + ";"|
  {
    if e.Some? then
      ConcatStartsEnds(e.value.value, " := " + DataRef(db, name) + ";");
      assert e.value.value + " := " + DataRef(db, name) + ";" == e.value.value + (" := " + DataRef(db, name) + ";");
      Some(e.value.value + " := " + DataRef(db, name) + ";")
    else None
  }

  function EnableField(db: Db, res: Resolution): (r: BuiltField)
    ensures r.name == "enable" && r.declaration.Some? && r.assignWrite.None? && r.comment == ENABLE_COMMENT
    ensures r.assignRead.Some? <==> Resolve(res, db.fields.enableRead).Some?
  {
    BuiltField("enable", Some(Declaration("enable", "BOOL", db.fields.enableInit)),
      AssignRead(db.name, "enable", Resolve(res, db.fields.enableRead)), None, ENABLE_COMMENT)
  }

  function EntryField(dbName: string, res: Resolution, f: Field): (r: BuiltField)
    ensures r.name == f.name && r.comment == f.kind.comment
    ensures r.declaration.Some? <==> f.kind.DataField?
    ensures r.assignRead.Some? <==> f.kind.DataField? && Resolve(res, f.kind.read).Some?
    ensures r.assignWrite.Some? <==> f.kind.DataField? && Resolve(res, f.kind.write).Some?
  {
    match f.kind
    case DataField(dtype, comment, read, write) =>
      BuiltField(f.name, Some(Declaration(f.name, dtype, "")),
        AssignRead(dbName, f.name, Resolve(res, read)),
        AssignWrite(dbName, f.name, Resolve(res, write)), comment)
    case InputField(comment) =>
      BuiltField(f.name, None, None, None, comment)
  }

  function EntryBuilder(dbName: string, res: Resolution): Field -> BuiltField
  {
    f => EntryField(dbName, res, f)
  }

  /** `Object.values(fields)`, each annotated: `enable` first, then the
      entries in the order `push` added them. */
  function BuiltFields(db: Db, res: Resolution): (r: seq<BuiltField>)
    ensures |r| == 1 + |db.fields.entries|
    ensures r[0] == EnableField(db, res)
    ensures forall i :: 0 <= i < |db.fields.entries| ==> r[i + 1] == EntryField(db.name, res, db.fields.entries[i])
  {
    [EnableField(db, res)] + Map(EntryBuilder(db.name, res), db.fields.entries)
  }

  predicate Declared(f: BuiltField) { f.declaration.Some? }
  predicate Reads(f: BuiltField) { f.assignRead.Some? }
  predicate Writes(f: BuiltField) { f.assignWrite.Some? }

  // ---------------------------------------------------------------------
  // Inputs and their triggers

  /** An input after pass 2: `value` is the text `input.value.value` holds
      (the edge follower copies it), `trigger` the condition that raises the
      interlock. */
  datatype BuiltInput = BuiltInput(
    name: string, value: string, trigger: string, edgeField: Option<string>, comment: string)

  /** An expression is parenthesised when it is compound. */
  function Paren(e: S7Expr): (r: string)
    ensures r == e.value || r == "(" + e.value + ")"
    ensures e.isExpress <==> r != e.value
  {
    if e.isExpress then
      assert |"(" + e.value + ")"| != |e.value|;
      "(" + e.value + ")"
    else e.value
  }

  /** The expression record behind an operand: a reference to a `data` item
      carries its own value and is never compound. */
  function ExprOf(res: Resolution, op: Operand): (r: Option<S7Expr>)
    ensures op.Ref? ==> r == Some(S7Expr(op.value, false, ""))
    ensures op.Ticket? ==> r == Resolve(res, Some(op.ticket))
  {
    match op
    case Ref(_, v, _) => Some(S7Expr(v, false, ""))
    case Ticket(t) => Resolve(res, Some(t))
  }

  /** One item of an `and` list: an item pass 1 rejected has no `value`,
      and neither has an unresolved expression. */
  function AndItem(res: Resolution, item: Option<Operand>): (r: Result<string>)
    ensures item.None? ==> r == Err(BadAndItem)
    ensures r.Err? ==> r.error == BadAndItem || r.error == UnresolvedExpression
    ensures item.Some? ==> (r.Ok? <==> ExprOf(res, item.value).Some?)
    ensures r.Ok? ==> r.value == Paren(ExprOf(res, item.value).value)
  {
    if item.None? then Err(BadAndItem)
    else
      var e := ExprOf(res, item.value);
      if e.None? then Err(UnresolvedExpression) else Ok(Paren(e.value))
  }

  function AndItemFn(res: Resolution): Option<Operand> -> Result<string>
  {
    item => AndItem(res, item)
  }

  /** The text that enters the trigger, and the text `input.value.value`
      holds afterwards (the unparenthesised value, or the joined `and` list). */
  function InputTexts(res: Resolution, v: InputValue): (r: Result<(string, string)>)
    ensures v.Single? ==> (r.Ok? <==> ExprOf(res, v.op).Some?)
    ensures v.Single? && r.Ok? ==> r.value == (Paren(ExprOf(res, v.op).value), ExprOf(res, v.op).value.value)
    ensures v.Conj? ==> (r.Ok? <==> forall i :: 0 <= i < |v.items| ==> AndItem(res, v.items[i]).Ok?)
    ensures v.Conj? && r.Ok? ==> r.value.0 == r.value.1
    ensures r.Err? ==> r.error == BadAndItem || r.error == UnresolvedExpression
  {
    match v
    case Single(op) =>
      var e := ExprOf(res, op);
      if e.None? then Err(UnresolvedExpression) else Ok((Paren(e.value), e.value.value))
    case Conj(items) =>
      MapResultSpec(AndItemFn(res), items);
      var parts :- MapResult(AndItemFn(res), items);
      var joined := Join(parts, " AND ");
      Ok((joined, joined))
  }

  function EdgeField(name: string): string
  {
    name + "_fo"
  }

  /** `a b c` starts with `a` and ends with `c`. */
  lemma Framed(a: string, b: string, c: string)
    ensures StartsWith(a + b + c, a) && EndsWith(a + b + c, c)
  {
    assert (a + b + c)[..|a|] == a;
    assert (a + b + c)[|a + b + c| - |c|..] == c;
  }

  /** How a trigger type is read: `falling`, `change`, `on`, `off`, and
      anything else as rising. */
  datatype Edge = Falling | Change | On | Off | Rising

  function EdgeOf(triggerType: string): (k: Edge)
    ensures k.On? <==> triggerType == "on"
    ensures k.Off? <==> triggerType == "off"
    ensures k.Falling? <==> triggerType == "falling"
    ensures k.Change? <==> triggerType == "change"
  {
    if triggerType == "falling" then Falling
    else if triggerType == "change" then Change
    else if triggerType == "on" then On
    else if triggerType == "off" then Off
    else Rising
  }

  /** The trigger condition for `value` and the edge follower it needs:
      `falling`, `change` and the default (rising) compare the value with its
      follower `<name>_fo`, `on` and `off` test the level. */
  function Trigger(dbName: string, name: string, triggerType: string, value: string): (r: (string, Option<string>))
    ensures r.1.Some? <==> triggerType != "on" && triggerType != "off"
    ensures r.1.Some? ==> r.1.value == EdgeField(name) && EndsWith(r.0, DataRef(dbName, EdgeField(name)))
    ensures triggerType == "on" ==> r.0 == value
    ensures triggerType == "falling" || triggerType == "off" ==> StartsWith(r.0, "NOT " + value)
    ensures triggerType != "falling" && triggerType != "off" ==> StartsWith(r.0, value)
  {
    var edge := EdgeField(name);
    var follower := DataRef(dbName, edge);
    match EdgeOf(triggerType)
    case Falling =>
      Framed("NOT " + value, " AND ", follower);
      ("NOT " + value + " AND " + follower, Some(edge))
    case Change =>
      Framed(value, " XOR ", follower);
      (value + " XOR " + follower, Some(edge))
    case On =>
      Framed(value, "", "");
      assert value + "" + "" == value;
      (value, None)
    case Off =>
      Framed("NOT " + value, "", "");
      assert "NOT " + value + "" + "" == "NOT " + value;
      ("NOT " + value, None)
    case Rising =>
      Framed(value, " AND NOT ", follower);
      (value + " AND NOT " + follower, Some(edge))
  }

  /** The five condition texts: `falling` is `NOT v AND f`, `change` is
      `v XOR f`, `on` is `v`, `off` is `NOT v`, and any other trigger type
      (rising) is `v AND NOT f`, where `f` is the follower `"<DB>".<name>_fo`. */
  lemma TriggerTexts(dbName: string, name: string, triggerType: string, value: string)
    ensures var t := Trigger(dbName, name, triggerType, value).0;
            var f := DataRef(dbName, name + "_fo");
            (triggerType == "falling" ==> t == "NOT " + value + " AND " + f)
            && (triggerType == "change" ==> t == value + " XOR " + f)
            && (triggerType == "on" ==> t == value)
            && (triggerType == "off" ==> t == "NOT " + value)
            && (triggerType != "falling" && triggerType != "change" && triggerType != "on" && triggerType != "off"
                ==> t == value + " AND NOT " + f)
  {
  }

  function BuildInput(dbName: string, res: Resolution, inp: Input): (r: Result<BuiltInput>)
    ensures r.Ok? <==> InputTexts(res, inp.value).Ok?
    ensures r.Ok? ==> var t := Trigger(dbName, inp.name, inp.triggerType, InputTexts(res, inp.value).value.0);
                      r.value.trigger == t.0 && r.value.edgeField == t.1
    ensures r.Err? ==> r.error == BadAndItem || r.error == UnresolvedExpression
    ensures r.Ok? ==> r.value.name == inp.name && r.value.comment == inp.comment
    ensures r.Ok? ==> (r.value.edgeField.Some? <==> inp.triggerType != "on" && inp.triggerType != "off")
    ensures r.Ok? ==> r.value.value == InputTexts(res, inp.value).value.1
  {
    var texts :- InputTexts(res, inp.value);
    var t := Trigger(dbName, inp.name, inp.triggerType, texts.0);
    Ok(BuiltInput(inp.name, texts.1, t.0, t.1, inp.comment))
  }

  /** The items of an `and` input are joined without outer parentheses, so
      in a `falling` trigger the `NOT` applies to the first item only:
      `NOT a AND b AND "<DB>".<name>_fo`. */
  lemma FallingConjunctionNegatesFirstItem(db: string, name: string, a: string, b: string)
    ensures var res := [Some(S7Expr(a, false, "")), Some(S7Expr(b, false, ""))];
            var r := BuildInput(db, res, Input(name, Conj([Some(Ticket(0)), Some(Ticket(1))]), "falling", ""));
            r.Ok? && r.value.trigger == "NOT " + a + " AND " + b + " AND " + DataRef(db, name + "_fo")
  {
    var res := [Some(S7Expr(a, false, "")), Some(S7Expr(b, false, ""))];
    var items := [Some(Ticket(0)), Some(Ticket(1))];
    assert AndItemFn(res)(items[0]) == AndItem(res, items[0]) == Ok(a);
    assert AndItemFn(res)(items[1]) == AndItem(res, items[1]) == Ok(b);
    assert items[..0] == [];
    MapResultSnoc(AndItemFn(res), items, 0, []);
    assert [] + [a] == [a];
    MapResultSnoc(AndItemFn(res), items, 1, [a]);
    assert items[..2] == items;
    assert [a] + [b] == [a, b];
    assert [a, b][..1] == [a];
    assert Join([a, b], " AND ") == a + " AND " + b;
    assert InputTexts(res, Conj(items)) == Ok((a + " AND " + b, a + " AND " + b));
    TriggerTexts(db, name, "falling", a + " AND " + b);
  }

  function InputFn(dbName: string, res: Resolution): Input -> Result<BuiltInput>
  {
    inp => BuildInput(dbName, res, inp)
  }

  predicate HasEdge(b: BuiltInput) { b.edgeField.Some? }

  // ---------------------------------------------------------------------
  // Resets and outputs

  /** A reset after pass 2: its text, and whether the loop clears it (only a
      `data` item no `read` expression overwrites can be cleared). */
  datatype BuiltReset = BuiltReset(value: Option<string>, resettable: bool)

  function BuildReset(res: Resolution, op: Operand): (r: BuiltReset)
    ensures r.value.Some? <==> ExprOf(res, op).Some?
    ensures r.resettable <==> op.Ref? && Resolve(res, op.read).None?
  {
    var e := ExprOf(res, op);
    BuiltReset(if e.Some? then Some(e.value.value) else None, op.Ref? && Resolve(res, op.read).None?)
  }

  function ResetFn(res: Resolution): Operand -> BuiltReset
  {
    op => BuildReset(res, op)
  }

  datatype BuiltOutput = BuiltOutput(
    value: Option<string>, setValue: string, resetValue: string, reset: Option<BuiltReset>)

  /** An output that names a `data` item must not have that item overwritten
      by a `read` expression. */
  predicate ReadsBack(res: Resolution, op: Operand)
  {
    op.Ref? && Resolve(res, op.read).Some?
  }

  function BuildOutput(res: Resolution, o: Output): (r: Result<BuiltOutput>)
    ensures r.Ok? <==> !ReadsBack(res, o.op)
    ensures r.Err? ==> r.error == OutputHasRead
    ensures r.Ok? ==> r.value.setValue == o.setValue && r.value.resetValue == o.resetValue
    ensures r.Ok? ==> (r.value.reset.Some? <==> o.reset.Some?)
  {
    if ReadsBack(res, o.op) then Err(OutputHasRead)
    else
      var e := ExprOf(res, o.op);
      Ok(BuiltOutput(if e.Some? then Some(e.value.value) else None, o.setValue, o.resetValue,
        if o.reset.Some? then Some(BuildReset(res, o.reset.value)) else None))
  }

  function OutputFn(res: Resolution): Output -> Result<BuiltOutput>
  {
    o => BuildOutput(res, o)
  }

  // ---------------------------------------------------------------------
  // Interlocks and DBs

  datatype BuiltInterlock = BuiltInterlock(
    name: string, comment: string, extraCode: Option<string>,
    inputs: seq<BuiltInput>, resets: seq<BuiltReset>, outputs: seq<BuiltOutput>)

  /** One interlock: its inputs, then its resets, then its outputs. */
  function BuildInterlock(dbName: string, res: Resolution, il: Interlock): (r: Result<BuiltInterlock>)
    ensures r.Ok? <==> (forall i :: 0 <= i < |il.inputs| ==> BuildInput(dbName, res, il.inputs[i]).Ok?) &&
                       (forall j :: 0 <= j < |il.outputs| ==> !ReadsBack(res, il.outputs[j].op))
    ensures r.Ok? ==> r.value.name == il.name && r.value.comment == il.comment && r.value.extraCode == il.extraCode
    ensures r.Ok? ==> |r.value.inputs| == |il.inputs| &&
                      forall i :: 0 <= i < |il.inputs| ==> BuildInput(dbName, res, il.inputs[i]) == Ok(r.value.inputs[i])
    ensures r.Ok? ==> r.value.resets == Map(ResetFn(res), il.resets)
    ensures r.Ok? ==> |r.value.outputs| == |il.outputs| &&
                      forall j :: 0 <= j < |il.outputs| ==> BuildOutput(res, il.outputs[j]) == Ok(r.value.outputs[j])
  {
    MapResultSpec(InputFn(dbName, res), il.inputs);
    MapResultSpec(OutputFn(res), il.outputs);
    var inputs :- MapResult(InputFn(dbName, res), il.inputs);
    var resets := Map(ResetFn(res), il.resets);
    var outputs :- MapResult(OutputFn(res), il.outputs);
    Ok(BuiltInterlock(il.name, il.comment, il.extraCode, inputs, resets, outputs))
  }

  /** Building an interlock never fails for want of an interlock: its inputs
      and outputs fail only with their own errors. */
  lemma BuildInterlockAvoidsNoInterlock(dbName: string, res: Resolution, il: Interlock)
    ensures BuildInterlock(dbName, res, il) != Err(NoInterlock)
  {
    MapResultAvoids(InputFn(dbName, res), il.inputs, NoInterlock);
    MapResultAvoids(OutputFn(res), il.outputs, NoInterlock);
  }

  function InterlockFn(dbName: string, res: Resolution): Interlock -> Result<BuiltInterlock>
  {
    il => BuildInterlock(dbName, res, il)
  }

  /** The inputs of all interlocks of a DB, in order. */
  function InputsOf(ils: seq<BuiltInterlock>): seq<BuiltInput>
  {
    if |ils| == 0 then [] else InputsOf(ils[..|ils| - 1]) + ils[|ils| - 1].inputs
  }

  /** A DB after pass 2. */
  datatype BuiltDb = BuiltDb(
    name: string, comment: string, fields: seq<BuiltField>,
    declarations: seq<BuiltField>, readList: seq<BuiltField>, writeList: seq<BuiltField>,
    interlocks: seq<BuiltInterlock>, edges: seq<BuiltInput>)

  /** The DB's comment: its symbol's comment, or when that is empty the first
      interlock's (which becomes the symbol's comment as well). */
  function DbComment(db: Db, res: Resolution): (r: Result<string>)
    ensures r.Ok? <==> Resolve(res, Some(db.symbol)).Some? && (Resolve(res, Some(db.symbol)).value.comment != "" || |db.interlocks| > 0)
    ensures r.Ok? ==> r.value == (if Resolve(res, Some(db.symbol)).value.comment != "" then Resolve(res, Some(db.symbol)).value.comment else db.interlocks[0].comment)
    ensures r == Err(NoInterlock) ==> |db.interlocks| == 0
  {
    var sym := Resolve(res, Some(db.symbol));
    if sym.None? then Err(UnresolvedExpression)
    else if sym.value.comment != "" then Ok(sym.value.comment)
    else if |db.interlocks| == 0 then Err(NoInterlock)
    else Ok(db.interlocks[0].comment)
  }

  function BuildDb(db: Db, res: Resolution): (r: Result<BuiltDb>)
  {
    var comment :- DbComment(db, res);
    var fields := BuiltFields(db, res);
    var declarations := Filter(Declared, fields);
    var ils :- MapResult(InterlockFn(db.name, res), db.interlocks);
    Ok(BuiltDb(db.name, comment, fields, declarations,
      Filter(Reads, declarations), Filter(Writes, declarations), ils, Filter(HasEdge, InputsOf(ils))))
  }

  function DbFn(res: Resolution): Db -> Result<BuiltDb>
  {
    db => BuildDb(db, res)
  }

  /** `build_list`: every DB in order. */
  function BuildList(dbs: seq<Db>, res: Resolution): Result<seq<BuiltDb>>
  {
    MapResult(DbFn(res), dbs)
  }

  // ---------------------------------------------------------------------
  // Properties

  /** `read_list` and `write_list` are the declared fields, in declaration
      order, that have a resolved `read` (`write`) expression. */
  lemma DeclarationLists(fields: seq<BuiltField>)
    ensures var decls := Filter(Declared, fields);
      Subseq(decls, fields) && Subseq(Filter(Reads, decls), decls) && Subseq(Filter(Writes, decls), decls)
    ensures var decls := Filter(Declared, fields);
      forall f :: f in Filter(Reads, decls) <==> f in fields && f.declaration.Some? && f.assignRead.Some?
    ensures var decls := Filter(Declared, fields);
      forall f :: f in Filter(Writes, decls) <==> f in fields && f.declaration.Some? && f.assignWrite.Some?
  {
    var decls := Filter(Declared, fields);
    FilterIsSubseq(Declared, fields);
    FilterIsSubseq(Reads, decls);
    FilterIsSubseq(Writes, decls);
    forall f ensures f in Filter(Reads, decls) <==> f in fields && f.declaration.Some? && f.assignRead.Some? {
      FilterMembers(Reads, decls, f);
      FilterMembers(Declared, fields, f);
    }
    forall f ensures f in Filter(Writes, decls) <==> f in fields && f.declaration.Some? && f.assignWrite.Some? {
      FilterMembers(Writes, decls, f);
      FilterMembers(Declared, fields, f);
    }
  }

  /** `enable` is always the first declaration. */
  lemma EnableDeclaredFirst(db: Db, res: Resolution)
    ensures var decls := Filter(Declared, BuiltFields(db, res));
      |decls| > 0 && decls[0] == EnableField(db, res)
  {
    var fields := BuiltFields(db, res);
    FilterAppend(Declared, [fields[0]], fields[1..]);
    assert [fields[0]] + fields[1..] == fields;
    assert Filter(Declared, [fields[0]]) == [fields[0]] by {
      assert [fields[0]][..0] == [];
    }
  }

  /** The lists of a built DB: the declarations are the fields with
      `S7_m_c`, in `Object.values` order, `enable` first; `read_list` and
      `write_list` are the declarations with a resolved `read` (`write`); the
      edge followers are the inputs with an edge, in order. */
  lemma BuildDbShape(db: Db, res: Resolution)
    requires BuildDb(db, res).Ok?
    ensures var b := BuildDb(db, res).value;
      Subseq(b.declarations, b.fields) && Subseq(b.readList, b.declarations) &&
      Subseq(b.writeList, b.declarations) && Subseq(b.edges, InputsOf(b.interlocks))
    ensures var b := BuildDb(db, res).value;
      forall f :: f in b.readList <==> f in b.fields && f.declaration.Some? && f.assignRead.Some?
    ensures var b := BuildDb(db, res).value;
      forall f :: f in b.writeList <==> f in b.fields && f.declaration.Some? && f.assignWrite.Some?
    ensures var b := BuildDb(db, res).value;
      forall e :: e in b.edges <==> e in InputsOf(b.interlocks) && e.edgeField.Some?
    ensures var b := BuildDb(db, res).value;
      b.name == db.name && |b.interlocks| == |db.interlocks| && |b.declarations| > 0 &&
      b.declarations[0] == EnableField(db, res)
  {
    var b := BuildDb(db, res).value;
    MapResultSpec(InterlockFn(db.name, res), db.interlocks);
    DeclarationLists(b.fields);
    EnableDeclaredFirst(db, res);
    FilterIsSubseq(HasEdge, InputsOf(b.interlocks));
    forall e ensures e in b.edges <==> e in InputsOf(b.interlocks) && e.edgeField.Some? {
      FilterMembers(HasEdge, InputsOf(b.interlocks), e);
    }
  }

  /** Whether the loop clears a reset depends only on what the reset named in
      the configuration: a `data` item of the DB whose `read` expression did
      not resolve.  A symbol or an SCL expression is never cleared. */
  lemma ResetResettable(w: Work, x: JsVal, res: Resolution)
    requires ResetOperand(w, x).Ok?
    ensures BuildReset(res, ResetOperand(w, x).value.1).resettable <==>
              x.Str? && x.s in w.db.dataDict && Resolve(res, w.db.dataDict[x.s]).None?
  {
    var p := ParseNode(w, x, Some(""));
    assert Some(ResetOperand(w, x).value.1) == p.1;
  }

  /** An output is rejected in pass 2 exactly when it named a `data` item of
      the DB whose `read` expression resolved. */
  lemma OutputReadsBack(w: Work, x: JsVal, comment: Option<string>, res: Resolution)
    requires ParseNode(w, x, comment).1.Some?
    ensures ReadsBack(res, ParseNode(w, x, comment).1.value) <==>
              x.Str? && x.s in w.db.dataDict && Resolve(res, w.db.dataDict[x.s]).Some?
  {
  }

  /** After a successful pass 1 every DB has an interlock, so pass 2 never
      fails for want of one, and it keeps the DBs' names and order. */
  lemma BuildListAfterPass1(conv: Conversions, list: seq<JsVal>, res: Resolution)
    requires InitializeList(conv, list).Ok?
    ensures var dbs := InitializeList(conv, list).value.dbs;
      BuildList(dbs, res) != Err(NoInterlock)
    ensures var dbs := InitializeList(conv, list).value.dbs;
      BuildList(dbs, res).Ok? ==>
        |BuildList(dbs, res).value| == |dbs| &&
        forall i :: 0 <= i < |dbs| ==> BuildList(dbs, res).value[i].name == dbs[i].name
  {
    InitializeListValid(conv, list);
    var dbs := InitializeList(conv, list).value.dbs;
    var r := BuildList(dbs, res);
    MapResultSpec(DbFn(res), dbs);
    if r.Err? {
      var i :| 0 <= i < |dbs| && BuildDb(dbs[i], res) == Err(r.error);
      assert DbOk(dbs[i]);
      BuildDbNeedsNoInterlock(dbs[i], res);
    } else {
      forall i | 0 <= i < |dbs| ensures r.value[i].name == dbs[i].name {
        assert BuildDb(dbs[i], res) == Ok(r.value[i]);
        BuildDbShape(dbs[i], res);
      }
    }
  }

  lemma BuildDbNeedsNoInterlock(db: Db, res: Resolution)
    requires |db.interlocks| > 0
    ensures BuildDb(db, res) != Err(NoInterlock)
  {
    forall i | 0 <= i < |db.interlocks| ensures InterlockFn(db.name, res)(db.interlocks[i]) != Err(NoInterlock) {
      BuildInterlockAvoidsNoInterlock(db.name, res, db.interlocks[i]);
    }
    MapResultAvoids(InterlockFn(db.name, res), db.interlocks, NoInterlock);
  }

  // ---------------------------------------------------------------------
  // `build_list`'s loops.  The source writes the annotations into the
  // records of pass 1; these return the annotated records instead.

  /** The loop over `Object.values(fields)`. */
  method BuildFieldList(db: Db, res: Resolution) returns (fields: seq<BuiltField>)
    ensures fields == BuiltFields(db, res)
  {
    var entries := db.fields.entries;
    fields := [EnableField(db, res)];
    var i := 0;
    while i < |entries|
      invariant i <= |entries|
      invariant fields == [EnableField(db, res)] + Map(EntryBuilder(db.name, res), entries[..i])
    {
      MapSnoc(EntryBuilder(db.name, res), entries, i);
      fields := fields + [EntryField(db.name, res, entries[i])];
      i := i + 1;
    }
    assert entries[..i] == entries;
  }

  /** The loop over an interlock's inputs; an input with an edge is
      appended to the DB's `edges` as it is met. */
  method BuildInputList(dbName: string, res: Resolution, inputs: seq<Input>, edges0: seq<BuiltInput>)
    returns (r: Result<seq<BuiltInput>>, edges: seq<BuiltInput>)
    ensures r == MapResult(InputFn(dbName, res), inputs)
    ensures r.Ok? ==> edges == edges0 + Filter(HasEdge, r.value)
  {
    edges := edges0;
    var built: seq<BuiltInput> := [];
    var i := 0;
    while i < |inputs|
      invariant i <= |inputs|
      invariant MapResult(InputFn(dbName, res), inputs[..i]) == Ok(built)
      invariant edges == edges0 + Filter(HasEdge, built)
    {
      var b := BuildInput(dbName, res, inputs[i]);
      MapResultSnoc(InputFn(dbName, res), inputs, i, built);
      if b.Err? {
        return Err(b.error), edges;
      }
      FilterAppendOne(HasEdge, built, b.value);
      if HasEdge(b.value) {
        edges := edges + [b.value];
      }
      built := built + [b.value];
      i := i + 1;
    }
    assert inputs[..i] == inputs;
    r := Ok(built);
  }

  /** The loop over an interlock's resets. */
  method BuildResetList(res: Resolution, resets: seq<Operand>) returns (built: seq<BuiltReset>)
    ensures built == Map(ResetFn(res), resets)
  {
    built := [];
    var j := 0;
    while j < |resets|
      invariant j <= |resets|
      invariant built == Map(ResetFn(res), resets[..j])
    {
      MapSnoc(ResetFn(res), resets, j);
      built := built + [BuildReset(res, resets[j])];
      j := j + 1;
    }
    assert resets[..j] == resets;
  }

  /** The loop over an interlock's outputs. */
  method BuildOutputList(res: Resolution, outputs: seq<Output>) returns (r: Result<seq<BuiltOutput>>)
    ensures r == MapResult(OutputFn(res), outputs)
  {
    var built: seq<BuiltOutput> := [];
    var k := 0;
    while k < |outputs|
      invariant k <= |outputs|
      invariant MapResult(OutputFn(res), outputs[..k]) == Ok(built)
    {
      var o := BuildOutput(res, outputs[k]);
      MapResultSnoc(OutputFn(res), outputs, k, built);
      if o.Err? {
        return Err(o.error);
      }
      built := built + [o.value];
      k := k + 1;
    }
    assert outputs[..k] == outputs;
    r := Ok(built);
  }

  /** One interlock: its inputs, then its resets, then its outputs. */
  method BuildInterlockEntries(dbName: string, res: Resolution, il: Interlock, edges0: seq<BuiltInput>)
    returns (r: Result<BuiltInterlock>, edges: seq<BuiltInput>)
    ensures r == BuildInterlock(dbName, res, il)
    ensures r.Ok? ==> edges == edges0 + Filter(HasEdge, r.value.inputs)
  {
    var inputs;
    inputs, edges := BuildInputList(dbName, res, il.inputs, edges0);
    if inputs.Err? {
      return Err(inputs.error), edges;
    }
    var resets := BuildResetList(res, il.resets);
    var outputs := BuildOutputList(res, il.outputs);
    if outputs.Err? {
      return Err(outputs.error), edges;
    }
    r := Ok(BuiltInterlock(il.name, il.comment, il.extraCode, inputs.value, resets, outputs.value));
  }

  /** One DB: its comment, its fields and lists, then its interlocks. */
  method BuildDbEntry(db: Db, res: Resolution) returns (r: Result<BuiltDb>)
    ensures r == BuildDb(db, res)
  {
    var comment := DbComment(db, res);
    if comment.Err? {
      return Err(comment.error);
    }
    var fields := BuildFieldList(db, res);
    var declarations := Filter(Declared, fields);
    var ils: seq<BuiltInterlock> := [];
    var edges: seq<BuiltInput> := [];
    var k := 0;
    while k < |db.interlocks|
      invariant k <= |db.interlocks|
      invariant MapResult(InterlockFn(db.name, res), db.interlocks[..k]) == Ok(ils)
      invariant edges == Filter(HasEdge, InputsOf(ils))
    {
      var b, e := BuildInterlockEntries(db.name, res, db.interlocks[k], edges);
      MapResultSnoc(InterlockFn(db.name, res), db.interlocks, k, ils);
      if b.Err? {
        return Err(b.error);
      }
      assert (ils + [b.value])[..|ils|] == ils;
      FilterAppend(HasEdge, InputsOf(ils), b.value.inputs);
      edges := e;
      ils := ils + [b.value];
      k := k + 1;
    }
    assert db.interlocks[..k] == db.interlocks;
    r := Ok(BuiltDb(db.name, comment.value, fields, declarations,
      Filter(Reads, declarations), Filter(Writes, declarations), ils, edges));
  }

  /** `build_list`: every DB in order. */
  method Build(dbs: seq<Db>, res: Resolution) returns (r: Result<seq<BuiltDb>>)
    ensures r == BuildList(dbs, res)
  {
    var built: seq<BuiltDb> := [];
    var i := 0;
    while i < |dbs|
      invariant i <= |dbs|
      invariant MapResult(DbFn(res), dbs[..i]) == Ok(built)
    {
      var b := BuildDbEntry(dbs[i], res);
      MapResultSnoc(DbFn(res), dbs, i, built);
      if b.Err? {
        return Err(b.error);
      }
      built := built + [b.value];
      i := i + 1;
    }
    assert dbs[..i] == dbs;
    r := Ok(built);
  }
}

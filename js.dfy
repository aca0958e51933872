/** JavaScript values as the converters receive them from the YAML loaders, the
    error kinds the converters raise, and the string helpers the model needs
    (case mapping, decimal and hexadecimal numerals, `String(v)`). */
module Js {

  datatype Option<+T> = None | Some(value: T)

  /** A JavaScript value: what `js-yaml` produces for a document, and what the
      `yaml` library's `get` returns for a map entry.  Numbers are integers. */
  datatype JsVal =
    | Undefined
    | Null
    | Bool(b: bool)
    | Num(n: int)
    | Str(s: string)
    | Arr(items: seq<JsVal>)
    | Obj(props: seq<(string, JsVal)>)

  /** Every way a converter stops: a thrown error (`SyntaxError`, `Error`, or a
      `TypeError` the runtime raises on `undefined.x`) or `process.exit(status)`. */
  datatype Error =
    // gen_data.js
    | CpuNameNotString
    | TypeNotString
    | UnsupportedDocType         // process.exit(1)
    | DuplicateConfiguration     // process.exit(2)
    | ConfNotObject              // destructuring `null` or `undefined`
    | IncludeSyntaxError         // the YAML loader rejects a symbols block
    | IncludeDocNotObject
    | IncludeSymbolsNotList
    | IncludeSymbolNotObject     // `symbol[3] = ...` on a primitive
    | ListNotArray               // `list.forEach` on a value that is not an array
    | YamlSyntaxError            // `loadAll` rejects a configuration file
    // CPU.js
    | InvalidClockMemory
    // PI.js
    | ModuleWithoutDb
    | UnsupportedModuleType
    | ModuleAddrUnresolved
    // converter_interlock.js
    | InterlockWithoutDb
    | BadDbName
    | DuplicateEnable
    | DuplicateEnableInit
    | DataNotList
    | BadDataItem
    | DuplicateField
    | InputListEmpty
    | BadInputItem
    | AndNotList
    | MissingInputValue
    | ResetNotList
    | BadResetItem
    | OutputNotList
    | BadOutputItem
    | MissingOutputValue
    | OutputHasRead
    | UnresolvedExpression       // reading `.value` or `.isExpress` of an expression the resolver left undefined
    | BadAndItem
    | NoInterlock                // `interlocks[0].comment` on a DB without interlocks

  /** The exit status of an error that calls `process.exit`; `None` for a thrown one. */
  function ExitStatus(e: Error): (r: Option<int>)
    ensures r.Some? <==> e == UnsupportedDocType || e == DuplicateConfiguration
    ensures e == UnsupportedDocType ==> r == Some(1)
    ensures e == DuplicateConfiguration ==> r == Some(2)
  {
    match e
    case UnsupportedDocType => Some(1)
    case DuplicateConfiguration => Some(2)
    case _ => None
  }

  datatype Result<+T> = Ok(value: T) | Err(error: Error) {
    predicate IsFailure() { Err? }
    function PropagateFailure<U>(): Result<U>
      requires Err?
    {
      Err(error)
    }
    function Extract(): T
      requires Ok?
    {
      value
    }
  }

  datatype Outcome = Pass | Fail(error: Error) {
    predicate IsFailure() { Fail? }
    function PropagateFailure(): Outcome
      requires Fail?
    {
      this
    }
  }

  /** A conversion rule handed to the template renderer: the output file name
      and the tags the template reads. */
  datatype Rule = Rule(name: string, tags: JsVal)

  /** `v == undefined` (loose equality), the test behind `??` and `??=`. */
  predicate Nullish(v: JsVal) { v.Undefined? || v.Null? }

  /** JavaScript truthiness. */
  predicate Truthy(v: JsVal)
  {
    match v
    case Undefined => false
    case Null => false
    case Bool(b) => b
    case Num(n) => n != 0
    case Str(s) => s != ""
    case _ => true
  }

  /** `v ?? d` */
  function Coalesce(v: JsVal, d: JsVal): JsVal
  {
    if Nullish(v) then d else v
  }

  /** Property read `v[key]` (or `v?.[key]`) on an object; every other value has
      no such own property. */
  function Get(v: JsVal, key: string): (r: JsVal)
    ensures !v.Obj? ==> r == Undefined
  {
    match v
    case Obj(props) => Lookup(props, key)
    case _ => Undefined
  }

  function Lookup(props: seq<(string, JsVal)>, key: string): JsVal
  {
    if |props| == 0 then Undefined
    else if props[0].0 == key then props[0].1
    else Lookup(props[1..], key)
  }

  /** `a[k] ??= d` on the items of an array: a missing or nullish item `k` becomes
      `d`; writing past the end leaves holes, which read as `undefined`. */
  function DefaultAt(items: seq<JsVal>, k: nat, d: JsVal): (r: seq<JsVal>)
    ensures |r| == if k < |items| then |items| else k + 1
    ensures r[k] == if k < |items| && !Nullish(items[k]) then items[k] else d
    ensures forall i :: 0 <= i < |r| && i != k ==> r[i] == if i < |items| then items[i] else Undefined
  {
    if k < |items| then
      if Nullish(items[k]) then items[k := d] else items
    else items + seq(k - |items|, _ => Undefined) + [d]
  }

  /** A second `??=` with any default changes nothing once the first one put a
      non-nullish value in place. */
  lemma DefaultAtIdempotent(items: seq<JsVal>, k: nat, d: JsVal, d': JsVal)
    requires !Nullish(d)
    ensures DefaultAt(DefaultAt(items, k, d), k, d') == DefaultAt(items, k, d)
  {
  }

  /** `o[key] ??= d` on an object's properties: a new key goes last. */
  function DefaultProp(props: seq<(string, JsVal)>, key: string, d: JsVal): (r: seq<(string, JsVal)>)
    ensures Lookup(r, key) == if Nullish(Lookup(props, key)) then d else Lookup(props, key)
    ensures forall k :: k != key ==> Lookup(r, k) == Lookup(props, k)
  {
    if |props| == 0 then [(key, d)]
    else if props[0].0 == key then (if Nullish(props[0].1) then [(key, d)] + props[1..] else props)
    else [props[0]] + DefaultProp(props[1..], key, d)
  }

  /** `String(v)` for the values the converters concatenate. */
  function ToString(v: JsVal): string
    decreases v
  {
    match v
    case Undefined => "undefined"
    case Null => "null"
    case Bool(b) => if b then "true" else "false"
    case Num(n) => IntToString(n)
    case Str(s) => s
    case Arr(items) => JoinItems(items)
    case Obj(_) => "[object Object]"
  }

  /** `Array.prototype.join(',')`: `null` and `undefined` elements print as empty. */
  function JoinItems(items: seq<JsVal>): string
    decreases items
  {
    if |items| == 0 then ""
    else
      var last := if Nullish(items[|items| - 1]) then "" else ToString(items[|items| - 1]);
      if |items| == 1 then last else JoinItems(items[..|items| - 1]) + "," + last
  }

  // ---------------------------------------------------------------------
  // Case mapping (ASCII letters only)

  function LowerChar(c: char): char
  {
    if 'A' <= c <= 'Z' then (c as int + 32) as char else c
  }

  function UpperChar(c: char): char
  {
    if 'a' <= c <= 'z' then (c as int - 32) as char else c
  }

  /** `s.toLowerCase()` */
  function Lower(s: string): (r: string)
    ensures |r| == |s|
  {
    seq(|s|, i requires 0 <= i < |s| => LowerChar(s[i]))
  }

  /** `s.toUpperCase()` */
  function Upper(s: string): (r: string)
    ensures |r| == |s|
  {
    seq(|s|, i requires 0 <= i < |s| => UpperChar(s[i]))
  }

  /** `Upper` agrees with `Lower` on which strings match a lower-case word. */
  lemma {:induction false} UpperMatchesIffLowerMatches(s: string, word: string)
    requires forall i :: 0 <= i < |word| ==> 'a' <= word[i] <= 'z'
    ensures Lower(s) == word <==> Upper(s) == Upper(word)
  {
    if Lower(s) == word {
      assert |s| == |word|;
      forall i | 0 <= i < |s| ensures Upper(s)[i] == Upper(word)[i] {
        assert LowerChar(s[i]) == word[i];
      }
    }
    if Upper(s) == Upper(word) {
      assert |s| == |word|;
      forall i | 0 <= i < |s| ensures Lower(s)[i] == word[i] {
        assert Upper(s)[i] == Upper(word)[i];
        assert UpperChar(s[i]) == UpperChar(word[i]);
      }
    }
  }

  /** JavaScript's `\s` class: white space and line terminators. */
  predicate IsSpace(c: char)
  {
    c == '\t' || c == '\n' || c == '\U{000B}' || c == '\U{000C}' || c == '\r' || c == ' '
    || c == '\U{00A0}' || c == '\U{1680}' || ('\U{2000}' <= c <= '\U{200A}')
    || c == '\U{2028}' || c == '\U{2029}' || c == '\U{202F}' || c == '\U{205F}'
    || c == '\U{3000}' || c == '\U{FEFF}'
  }

  predicate IsDigit(c: char) { '0' <= c <= '9' }

  // ---------------------------------------------------------------------
  // Decimal numerals

  function DigitChar(d: nat): char
    requires d < 10
  {
    ('0' as int + d) as char
  }

  /** The decimal numeral of `n`, without leading zeros. */
  function NatToString(n: nat): (r: string)
    ensures |r| >= 1
    ensures forall i :: 0 <= i < |r| ==> IsDigit(r[i])
  {
    if n < 10 then [DigitChar(n)] else NatToString(n / 10) + [DigitChar(n % 10)]
  }

  function IntToString(n: int): string
  {
    if n < 0 then "-" + NatToString(-n) else NatToString(n)
  }

  /** The value of a string of decimal digits. */
  function DecimalValue(s: string): nat
    requires forall i :: 0 <= i < |s| ==> IsDigit(s[i])
  {
    if |s| == 0 then 0
    else
      assert IsDigit(s[|s| - 1]);
      DecimalValue(s[..|s| - 1]) * 10 + (s[|s| - 1] as int - '0' as int)
  }

  lemma {:induction false} DecimalRoundTrip(n: nat)
    ensures DecimalValue(NatToString(n)) == n
  {
    if n >= 10 {
      var s := NatToString(n);
      assert s[..|s| - 1] == NatToString(n / 10);
      DecimalRoundTrip(n / 10);
    }
  }

  /** Distinct numbers have distinct numerals. */
  lemma NatToStringInjective(m: nat, n: nat)
    requires NatToString(m) == NatToString(n)
    ensures m == n
  {
    DecimalRoundTrip(m);
    DecimalRoundTrip(n);
  }

  // ---------------------------------------------------------------------
  // Hexadecimal numerals (the behaviour of `fixed_hex`)

  function HexChar(d: nat): char
    requires d < 16
  {
    if d < 10 then ('0' as int + d) as char else ('A' as int + d - 10) as char
  }

  predicate IsHexChar(c: char) { IsDigit(c) || 'A' <= c <= 'F' }

  function HexCharValue(c: char): nat
    requires IsHexChar(c)
  {
    if IsDigit(c) then c as int - '0' as int else c as int - 'A' as int + 10
  }

  predicate IsHex(s: string) { forall i :: 0 <= i < |s| ==> IsHexChar(s[i]) }

  /** The upper-case hexadecimal numeral of `n`, without leading zeros. */
  function HexString(n: nat): (r: string)
    ensures |r| >= 1 && IsHex(r)
  {
    if n < 16 then [HexChar(n)] else HexString(n / 16) + [HexChar(n % 16)]
  }

  function HexValue(s: string): nat
    requires IsHex(s)
  {
    if |s| == 0 then 0
    else HexValue(s[..|s| - 1]) * 16 + HexCharValue(s[|s| - 1])
  }

  function Pow16(w: nat): (r: nat)
    ensures r >= 1
  {
    if w == 0 then 1 else 16 * Pow16(w - 1)
  }

  function Zeros(k: nat): (r: string)
    ensures |r| == k && IsHex(r)
  {
    seq(k, i => '0')
  }

  /** `fixed_hex(n, w)`: the hexadecimal numeral of `n`, padded on the left with
      zeros to at least `w` digits. */
  function FixedHex(n: nat, w: nat): (r: string)
    ensures IsHex(r)
  {
    var h := HexString(n);
    if |h| >= w then h else Zeros(w - |h|) + h
  }

  lemma {:induction false} HexRoundTrip(n: nat)
    ensures HexValue(HexString(n)) == n
  {
    if n >= 16 {
      var s := HexString(n);
      assert s[..|s| - 1] == HexString(n / 16);
      HexRoundTrip(n / 16);
    }
  }

  lemma {:induction false} LeadingZerosAddNothing(k: nat, s: string)
    requires IsHex(s)
    ensures HexValue(Zeros(k) + s) == HexValue(s)
    decreases |s|
  {
    if |s| == 0 {
      ZerosValue(k);
      assert Zeros(k) + s == Zeros(k);
    } else {
      var t := Zeros(k) + s;
      assert t[..|t| - 1] == Zeros(k) + s[..|s| - 1];
      LeadingZerosAddNothing(k, s[..|s| - 1]);
    }
  }

  lemma {:induction false} ZerosValue(k: nat)
    ensures HexValue(Zeros(k)) == 0
  {
    if k > 0 {
      assert Zeros(k)[..k - 1] == Zeros(k - 1);
      ZerosValue(k - 1);
    }
  }

  /** The numeral of `n` has at most `w` digits exactly when `n < 16^w`. */
  lemma {:induction false} HexLength(n: nat, w: nat)
    ensures |HexString(n)| <= w <==> (w >= 1 && n < Pow16(w))
  {
    if n >= 16 && w >= 1 {
      HexLength(n / 16, w - 1);
    }
    if n >= 16 && w == 0 {
    }
  }

  /** `fixed_hex` denotes the number it is given, and has exactly `w` digits
      whenever the number fits in `w` digits. */
  lemma FixedHexCorrect(n: nat, w: nat)
    ensures HexValue(FixedHex(n, w)) == n
    ensures 1 <= w && n < Pow16(w) ==> |FixedHex(n, w)| == w
    ensures |FixedHex(n, w)| >= w
  {
    HexRoundTrip(n);
    LeadingZerosAddNothing(if |HexString(n)| >= w then 0 else w - |HexString(n)|, HexString(n));
    if |HexString(n)| >= w {
      assert Zeros(0) + HexString(n) == HexString(n);
    }
    HexLength(n, w);
  }
}

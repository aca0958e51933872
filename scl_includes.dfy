/** `parse_symbols_in_SCL` (src/gen_data.js): the `(* symbols: ... *)` comment
    blocks of a document's includes text.  Every block is cut out of the text
    and the symbol list its YAML holds is handed to the symbol table, each
    symbol marked as coming from the includes. */
module SclIncludes {
  import opened Js
  import opened Seqs

  /** The comment that opens a block: `(*` followed by `symbols:`. */
  const OPEN: string := "(*symbols:"

  const INCLUDE_COMMENT: string := "symbol from files of includes"

  /** The first index at or after `i` that is not white space (`\s*`, greedy). */
  function SkipSpace(s: string, i: nat): (r: nat)
    requires i <= |s|
    ensures i <= r <= |s|
    ensures forall j :: i <= j < r ==> IsSpace(s[j])
    ensures r < |s| ==> !IsSpace(s[r])
    decreases |s| - i
  {
    if i == |s| || !IsSpace(s[i]) then i else SkipSpace(s, i + 1)
  }

  predicate ClosesAt(s: string, j: int)
  {
    0 <= j && j + 1 < |s| && s[j] == '*' && s[j + 1] == ')'
  }

  /** The first `*)` at or after `i` (`[\s\S]*?\*\)`, lazy). */
  function FindClose(s: string, i: nat): (r: Option<nat>)
    requires i <= |s|
    ensures r.Some? ==> i <= r.value && ClosesAt(s, r.value)
    ensures forall j :: i <= j && (r.None? || j < r.value) ==> !ClosesAt(s, j)
    decreases |s| - i
  {
    if i + 1 >= |s| then None
    else if ClosesAt(s, i) then Some(i)
    else FindClose(s, i + 1)
  }

  /** A match of the block pattern: `yaml` starts at `start` and the closing
      `*)` at `close`. */
  datatype Match = Match(start: nat, close: nat)

  /** The text the pattern's second group captures: `symbols:`, at least one
      white-space character, then anything not containing `*)`. */
  predicate IsSymbolsBlock(y: string)
  {
    |y| >= 9 && y[..8] == "symbols:" && IsSpace(y[8])
    && forall j :: 0 <= j < |y| - 1 ==> !ClosesAt(y, j)
  }

  /** The text between an `(*symbols:` at `w` followed by white space and the
      first `*)` after that white space is a symbols block. */
  lemma SymbolsBlockAt(s: string, w: nat, e: nat, c: nat)
    requires w + 10 < |s| && s[w..w + 10] == OPEN && IsSpace(s[w + 10])
    requires e == SkipSpace(s, w + 11) && FindClose(s, e) == Some(c)
    ensures s[w] == '(' && s[w + 1] == '*'
    ensures IsSymbolsBlock(s[w + 2..c])
  {
    var y := s[w + 2..c];
    forall k | 0 <= k < 8 ensures y[..8][k] == OPEN[2..][k] {
      assert y[..8][k] == s[w..w + 10][k + 2];
    }
    assert y[..8] == OPEN[2..] == "symbols:";
    assert s[w] == s[w..w + 10][0] && s[w + 1] == s[w..w + 10][1];
    assert y[8] == s[w + 10];
    forall j | w + 2 <= j < c ensures !ClosesAt(s, j) {
      if j < w + 10 {
        assert s[j] == OPEN[j - w];
      } else if j < e {
        assert IsSpace(s[j]);
      }
    }
    forall j | 0 <= j < |y| - 1 ensures !ClosesAt(y, j) {
      assert y[j] == s[w + 2 + j] && y[j + 1] == s[w + 2 + j + 1];
      assert !ClosesAt(s, w + 2 + j);
    }
  }

  /** `/(^|\n)\s*\(\*(symbols:\s+[\s\S]*?)\*\)/` tried at index `p`: the match
      begins at the start of the text or at a line feed, skips white space,
      and ends at the first `*)` after the white space that follows `symbols:`. */
  function MatchAt(s: string, p: nat): (r: Option<Match>)
    requires p < |s|
    ensures r.Some? ==>
      p + 2 <= r.value.start <= r.value.close && r.value.close + 2 <= |s|
      && s[r.value.start - 2] == '(' && s[r.value.start - 1] == '*'
      && ClosesAt(s, r.value.close)
    ensures r.Some? ==> p == 0 || s[p] == '\n'
  {
    if !(p == 0 || s[p] == '\n') then None
    else
      var w := SkipSpace(s, p);
      if w + 10 < |s| && s[w..w + 10] == OPEN && IsSpace(s[w + 10]) then
        var e := SkipSpace(s, w + 11);
        match FindClose(s, e)
        case None => None
        case Some(c) =>
          assert s[w] == s[w..w + 10][0] && s[w + 1] == s[w..w + 10][1];
          Some(Match(w + 2, c))
      else None
  }

  /** What a match captures is `symbols:`, white space, and text without `*)`. */
  lemma MatchIsSymbolsBlock(s: string, p: nat)
    requires p < |s| && MatchAt(s, p).Some?
    ensures IsSymbolsBlock(s[MatchAt(s, p).value.start..MatchAt(s, p).value.close])
  {
    var w := SkipSpace(s, p);
    SymbolsBlockAt(s, w, SkipSpace(s, w + 11), MatchAt(s, p).value.close);
  }

  /** The includes text with the blocks removed, and the YAML text of each
      block, in order. */
  datatype Cut = Cut(code: string, blocks: seq<string>)

  /** Where the search resumes after trying the pattern at `p`: past the
      character where no block starts, past the `*)` where one does. */
  function Resume(s: string, p: nat): (q: nat)
    requires p < |s|
    ensures p < q <= |s|
  {
    match MatchAt(s, p)
    case None => p + 1
    case Some(m) => m.close + 2
  }

  /** What trying the pattern at `p` keeps of the text: the character where no
      block starts, nothing where one does (the callback returns `''`). */
  function Kept(s: string, p: nat): (k: string)
    requires p < |s|
    ensures |k| <= Resume(s, p) - p
    ensures Subseq(k, s[p..Resume(s, p)])
  {
    if MatchAt(s, p).None? then
      assert s[p..p + 1] == [s[p]] && [s[p]][..0] == [];
      [s[p]]
    else []
  }

  /** The YAML text captured at `p`, if a block starts there. */
  function Taken(s: string, p: nat): (t: seq<string>)
    requires p < |s|
    ensures |t| <= 1
    ensures t == [] <==> MatchAt(s, p).None?
  {
    match MatchAt(s, p)
    case None => []
    case Some(m) => [s[m.start..m.close]]
  }

  /** `SCL.replace(pattern, () => '')` from index `p` on: a global replace
      resumes the search where the previous match ended. */
  function ReplaceAll(s: string, p: nat): (r: Cut)
    requires p <= |s|
    ensures |r.code| <= |s| - p
    decreases |s| - p
  {
    if p == |s| then Cut("", [])
    else
      var rest := ReplaceAll(s, Resume(s, p));
      Cut(Kept(s, p) + rest.code, Taken(s, p) + rest.blocks)
  }

  /** `parse_symbols_in_SCL`'s text result. */
  function StripBlocks(s: string): Cut
  {
    ReplaceAll(s, 0)
  }

  lemma TakenAreSymbolsBlocks(s: string, p: nat)
    requires p < |s|
    ensures forall b :: b in Taken(s, p) ==> IsSymbolsBlock(b)
  {
    if MatchAt(s, p).Some? {
      MatchIsSymbolsBlock(s, p);
    }
  }

  /** Every block cut out is a symbols block. */
  lemma {:induction false} BlocksAreSymbolsBlocks(s: string, p: nat)
    requires p <= |s|
    ensures forall b :: b in ReplaceAll(s, p).blocks ==> IsSymbolsBlock(b)
    decreases |s| - p
  {
    if p < |s| {
      var q := Resume(s, p);
      BlocksAreSymbolsBlocks(s, q);
      TakenAreSymbolsBlocks(s, p);
      assert ReplaceAll(s, p).blocks == Taken(s, p) + ReplaceAll(s, q).blocks;
    }
  }

  lemma KeptThenRest(s: string, p: nat, a: string)
    requires p < |s| && Subseq(a, s[Resume(s, p)..])
    ensures Subseq(Kept(s, p) + a, s[p..])
  {
    var k, q := Kept(s, p), Resume(s, p);
    assert s[p..q] + s[q..] == s[p..];
    if k == [] {
      SubseqPrefixRight(a, s[q..], s[p..q]);
      assert k + a == a;
    } else {
      assert k == [s[p]] && q == p + 1;
      SubseqConsBoth(a, s[q..], s[p]);
      assert s[p..q] == [s[p]];
    }
  }

  /** Cutting only deletes: what is left is the text with some characters
      taken out, in their original order. */
  lemma {:induction false} CodeIsSubseq(s: string, p: nat)
    requires p <= |s|
    ensures Subseq(ReplaceAll(s, p).code, s[p..])
    decreases |s| - p
  {
    if p < |s| {
      var q := Resume(s, p);
      CodeIsSubseq(s, q);
      KeptThenRest(s, p, ReplaceAll(s, q).code);
    }
  }

  /** Where no block starts, the step keeps the one character and takes nothing. */
  lemma NoMatchStep(s: string, p: nat)
    requires p < |s| && MatchAt(s, p).None?
    ensures Resume(s, p) == p + 1 && Kept(s, p) == [s[p]] && Taken(s, p) == []
  {
  }

  /** No block starts where no `(*` follows. */
  lemma NoOpenNoMatch(s: string, p: nat)
    requires p < |s|
    requires forall j :: p <= j < |s| - 1 ==> !(s[j] == '(' && s[j + 1] == '*')
    ensures MatchAt(s, p).None?
  {
  }

  /** Text without `(*` has no block and comes back unchanged. */
  lemma {:induction false} PlainTextUnchanged(s: string, p: nat)
    requires p <= |s|
    requires forall j :: p <= j < |s| - 1 ==> !(s[j] == '(' && s[j + 1] == '*')
    ensures ReplaceAll(s, p) == Cut(s[p..], [])
    decreases |s| - p
  {
    if p < |s| {
      NoOpenNoMatch(s, p);
      NoMatchStep(s, p);
      PlainTextUnchanged(s, p + 1);
      assert [s[p]] + s[p + 1..] == s[p..];
    }
  }

  /** The first `*)` at or after `i` is at `c` when one is there and none is
      in between. */
  lemma FindCloseAt(s: string, i: nat, c: nat)
    requires i <= c && ClosesAt(s, c)
    requires forall j :: i <= j < c ==> !ClosesAt(s, j)
    ensures FindClose(s, i) == Some(c)
  {
  }

  /** `s` holds the text `a`, a line feed, `(*`, the block text `y` and `*)`,
      in that order, from its start. */
  predicate BlockLayout(s: string, a: string, y: string)
  {
    |a| + |y| + 5 <= |s|
    && (forall k :: 0 <= k < |a| ==> s[k] == a[k])
    && s[|a|] == '\n' && s[|a| + 1] == '(' && s[|a| + 2] == '*'
    && (forall k :: 0 <= k < |y| ==> s[|a| + 3 + k] == y[k])
    && s[|a| + 3 + |y|] == '*' && s[|a| + 4 + |y|] == ')'
  }

  lemma LayoutOf(a: string, y: string, b: string)
    ensures BlockLayout(a + "\n(*" + y + "*)" + b, a, y)
  {
  }

  /** A block written right after a line feed matches there: it starts after
      the `(*` and closes at the `*)` that ends it. */
  lemma BlockMatches(s: string, a: string, y: string)
    requires IsSymbolsBlock(y) && BlockLayout(s, a, y)
    ensures MatchAt(s, |a|) == Some(Match(|a| + 3, |a| + 3 + |y|))
  {
    var w := |a| + 1;
    var c := |a| + 3 + |y|;
    SkipSpaceSteps(s, |a|);
    SkipSpaceStops(s, w);
    assert s[w..w + 10] == OPEN by {
      forall k | 2 <= k < 10 ensures s[w..w + 10][k] == OPEN[k] {
        assert s[w + k] == y[k - 2] == y[..8][k - 2];
      }
    }
    assert IsSpace(s[w + 10]) by { assert s[w + 10] == y[8]; }
    var e := SkipSpace(s, w + 11);
    assert !IsSpace(s[c]);
    assert e <= c;
    forall j | e <= j < c ensures !ClosesAt(s, j) {
      if j < c - 1 {
        assert s[j] == y[j - |a| - 3] && s[j + 1] == y[j - |a| - 2];
        assert !ClosesAt(y, j - |a| - 3);
      }
    }
    FindCloseAt(s, e, c);
  }

  /** Where the plain text before the block has no `(*` and does not end in
      white space, no match starts inside it. */
  lemma NoMatchBeforeBlock(s: string, a: string, y: string, p: nat)
    requires BlockLayout(s, a, y) && p < |a|
    requires forall j :: 0 <= j < |a| - 1 ==> !(a[j] == '(' && a[j + 1] == '*')
    requires !IsSpace(a[|a| - 1])
    ensures MatchAt(s, p).None?
  {
    if p == 0 || s[p] == '\n' {
      var w := SkipSpace(s, p);
      assert s[|a| - 1] == a[|a| - 1];
      assert w < |a|;
      assert !(s[w] == '(' && s[w + 1] == '*') by {
        if w + 1 < |a| {
          assert s[w] == a[w] && s[w + 1] == a[w + 1];
        } else {
          assert s[w + 1] == '\n';
        }
      }
      if w + 10 < |s| {
        assert s[w..w + 10][0] == s[w] && s[w..w + 10][1] == s[w + 1];
      }
    }
  }

  /** At the line feed before the block, the block is cut and the scan
      resumes after its `*)`. */
  lemma BlockStep(s: string, a: string, y: string)
    requires IsSymbolsBlock(y) && BlockLayout(s, a, y)
    ensures |a| < |s| && Resume(s, |a|) == |a| + |y| + 5
    ensures Kept(s, |a|) == [] && Taken(s, |a|) == [y]
  {
    BlockMatches(s, a, y);
    assert s[|a| + 3..|a| + 3 + |y|] == y;
  }

  /** One step of the global replace. */
  lemma ReplaceAllStep(s: string, p: nat)
    requires p < |s|
    ensures ReplaceAll(s, p) == Cut(Kept(s, p) + ReplaceAll(s, Resume(s, p)).code,
                                    Taken(s, p) + ReplaceAll(s, Resume(s, p)).blocks)
  {
  }

  /** Where a block `y` matches, the replace takes it and resumes after it. */
  lemma CutAtMatch(s: string, p: nat, y: string, q: nat)
    requires p < |s| && Resume(s, p) == q && Kept(s, p) == [] && Taken(s, p) == [y]
    ensures ReplaceAll(s, p) == Cut(ReplaceAll(s, q).code, [y] + ReplaceAll(s, q).blocks)
  {
    ReplaceAllStep(s, p);
    assert [] + ReplaceAll(s, q).code == ReplaceAll(s, q).code;
  }

  /** Where no block starts, the scan keeps the character and goes on. */
  lemma KeepOne(s: string, p: nat)
    requires p < |s| && MatchAt(s, p).None?
    ensures ReplaceAll(s, p) == Cut([s[p]] + ReplaceAll(s, p + 1).code, ReplaceAll(s, p + 1).blocks)
  {
    NoMatchStep(s, p);
    ReplaceAllStep(s, p);
    assert [] + ReplaceAll(s, p + 1).blocks == ReplaceAll(s, p + 1).blocks;
  }

  lemma ConsSlice(s: string, p: nat, n: nat, r: string)
    requires p < n <= |s|
    ensures [s[p]] + (s[p + 1..n] + r) == s[p..n] + r
  {
    assert [s[p]] + s[p + 1..n] == s[p..n];
  }

  /** Scanning text where no block starts keeps each of its characters, up
      to the block that starts at `n`. */
  lemma {:induction false} KeptUpTo(s: string, p: nat, n: nat, y: string, q: nat)
    requires p <= n < |s|
    requires forall k :: p <= k < n ==> MatchAt(s, k).None?
    requires Resume(s, n) == q && Kept(s, n) == [] && Taken(s, n) == [y]
    ensures ReplaceAll(s, p) == Cut(s[p..n] + ReplaceAll(s, q).code, [y] + ReplaceAll(s, q).blocks)
    decreases n - p
  {
    var rest := ReplaceAll(s, q);
    if p == n {
      CutAtMatch(s, n, y, q);
      assert s[p..n] + rest.code == rest.code;
    } else {
      KeepOne(s, p);
      KeptUpTo(s, p + 1, n, y, q);
      ConsSlice(s, p, n, rest.code);
    }
  }

  /** Completeness of the replacement: a symbols block written on its own
      line after text that contains no `(*` (and does not end in white space)
      is cut out together with the line feed before it, that text is kept,
      and the scan resumes at `q`, right after the block's `*)`. */
  lemma BlockAfterTextIsCut(s: string, a: string, y: string, b: string, q: nat)
    requires s == a + "\n(*" + y + "*)" + b && q == |a| + |y| + 5
    requires IsSymbolsBlock(y)
    requires forall j :: 0 <= j < |a| - 1 ==> !(a[j] == '(' && a[j + 1] == '*')
    requires |a| == 0 || !IsSpace(a[|a| - 1])
    ensures q <= |s|
    ensures StripBlocks(s) == Cut(a + ReplaceAll(s, q).code, [y] + ReplaceAll(s, q).blocks)
  {
    BlockSetting(a, y, b);
    StripUpTo(s, a, y, q);
  }

  /** In such a text, nothing matches before the block, and the block matches. */
  lemma BlockSetting(a: string, y: string, b: string)
    requires IsSymbolsBlock(y)
    requires forall j :: 0 <= j < |a| - 1 ==> !(a[j] == '(' && a[j + 1] == '*')
    requires |a| == 0 || !IsSpace(a[|a| - 1])
    ensures var s := a + "\n(*" + y + "*)" + b;
            |a| < |s| && s[..|a|] == a
            && (forall k :: 0 <= k < |a| ==> MatchAt(s, k).None?)
            && Resume(s, |a|) == |a| + |y| + 5 && Kept(s, |a|) == [] && Taken(s, |a|) == [y]
  {
    var s := a + "\n(*" + y + "*)" + b;
    LayoutOf(a, y, b);
    forall k | 0 <= k < |a| ensures MatchAt(s, k).None? {
      NoMatchBeforeBlock(s, a, y, k);
    }
    BlockStep(s, a, y);
    assert s[..|a|] == a;
  }

  /** The whole replace, once the text `a` before a block `y` is known to
      hold no match. */
  lemma StripUpTo(s: string, a: string, y: string, q: nat)
    requires |a| < |s| && s[..|a|] == a
    requires forall k :: 0 <= k < |a| ==> MatchAt(s, k).None?
    requires Resume(s, |a|) == q && Kept(s, |a|) == [] && Taken(s, |a|) == [y]
    ensures StripBlocks(s) == Cut(a + ReplaceAll(s, q).code, [y] + ReplaceAll(s, q).blocks)
  {
    KeptUpTo(s, 0, |a|, y, q);
    assert s[0..|a|] == a;
  }

  lemma SkipSpaceStops(s: string, i: nat)
    requires i < |s| && !IsSpace(s[i])
    ensures SkipSpace(s, i) == i
  {
  }

  lemma SkipSpaceSteps(s: string, i: nat)
    requires i < |s| && IsSpace(s[i])
    ensures SkipSpace(s, i) == SkipSpace(s, i + 1)
  {
  }

  const EXAMPLE: string := "A\n(*symbols: x*)"

  lemma ExampleAt0()
    ensures Resume(EXAMPLE, 0) == 1 && Kept(EXAMPLE, 0) == "A" && Taken(EXAMPLE, 0) == []
  {
    SkipSpaceStops(EXAMPLE, 0);
    assert EXAMPLE[0] != OPEN[0];
    assert MatchAt(EXAMPLE, 0) == None;
  }

  lemma ExampleMatch1()
    ensures MatchAt(EXAMPLE, 1) == Some(Match(4, 14))
  {
    assert EXAMPLE[1] == '\n' && EXAMPLE[2] == '(' && EXAMPLE[13] == 'x';
    SkipSpaceStops(EXAMPLE, 2);
    SkipSpaceSteps(EXAMPLE, 1);
    assert EXAMPLE[2..12] == OPEN;
    SkipSpaceStops(EXAMPLE, 13);
    assert ClosesAt(EXAMPLE, 14) && !ClosesAt(EXAMPLE, 13);
  }

  lemma ExampleYaml()
    ensures EXAMPLE[4..14] == "symbols: x"
  {
  }

  /** A block on the line after `A` is cut together with the line feed before it. */
  lemma OneBlockExample()
    ensures StripBlocks(EXAMPLE) == Cut("A", ["symbols: x"])
  {
    ExampleMatch1();
    ExampleYaml();
    var r16 := ReplaceAll(EXAMPLE, 16);
    assert r16 == Cut("", []);
    var r1 := ReplaceAll(EXAMPLE, 1);
    assert r1 == Cut([] + r16.code, [EXAMPLE[4..14]] + r16.blocks);
    ExampleAt0();
    assert StripBlocks(EXAMPLE) == Cut("A" + r1.code, [] + r1.blocks);
  }

  // ---------------------------------------------------------------------
  // The symbols of one block

  /** `symbol[3] ??= 'symbol from files of includes'`.  An array or object gets
      the comment where it has none; a string of more than three characters
      already has a character there; on any other value the assignment throws. */
  function WithIncludeComment(sym: JsVal): (r: Result<JsVal>)
    ensures sym.Arr? ==> r.Ok? && r.value.Arr?
    ensures sym.Obj? ==>
      r.Ok? && r.value.Obj? && Lookup(r.value.props, "3") ==
         (if Nullish(Lookup(sym.props, "3")) then Str(INCLUDE_COMMENT) else Lookup(sym.props, "3"))
    ensures r.Err? <==> !(sym.Arr? || sym.Obj? || (sym.Str? && |sym.s| > 3))
    ensures r.Err? ==> r.error == IncludeSymbolNotObject
  {
    match sym
    case Arr(items) => Ok(Arr(DefaultAt(items, 3, Str(INCLUDE_COMMENT))))
    case Obj(props) => Ok(Obj(DefaultProp(props, "3", Str(INCLUDE_COMMENT))))
    case Str(t) => if |t| > 3 then Ok(sym) else Err(IncludeSymbolNotObject)
    case _ => Err(IncludeSymbolNotObject)
  }

  /** `symbols.map(...)`, stopping at the first symbol that throws. */
  function MarkAll(syms: seq<JsVal>): (r: Result<seq<JsVal>>)
    ensures r.Ok? <==> forall i :: 0 <= i < |syms| ==> WithIncludeComment(syms[i]).Ok?
    ensures r.Ok? ==>
      |r.value| == |syms| && forall i :: 0 <= i < |syms| ==> r.value[i] == WithIncludeComment(syms[i]).value
  {
    if |syms| == 0 then Ok([])
    else
      var init :- MarkAll(syms[..|syms| - 1]);
      var last :- WithIncludeComment(syms[|syms| - 1]);
      Ok(init + [last])
  }

  /** The list one block hands to `add_symbols`: `load(yaml)['symbols']?.map(...) ?? []`.
      `doc` is what the YAML loader made of the block. */
  function BlockSymbols(doc: Result<JsVal>): (r: Result<seq<JsVal>>)
    ensures doc.Err? ==> r == Err(IncludeSyntaxError)
    ensures doc.Ok? && Nullish(doc.value) ==> r == Err(IncludeDocNotObject)
    ensures doc.Ok? && !Nullish(doc.value) && Nullish(Get(doc.value, "symbols")) ==> r == Ok([])
    ensures doc.Ok? && !Nullish(Get(doc.value, "symbols")) && !Get(doc.value, "symbols").Arr? ==>
      r == Err(IncludeSymbolsNotList)
    ensures doc.Ok? && !Nullish(doc.value) && Get(doc.value, "symbols").Arr? ==>
      r == MarkAll(Get(doc.value, "symbols").items)
  {
    if doc.Err? then Err(IncludeSyntaxError)
    else if Nullish(doc.value) then Err(IncludeDocNotObject)
    else
      var syms := Get(doc.value, "symbols");
      if Nullish(syms) then Ok([])
      else if !syms.Arr? then Err(IncludeSymbolsNotList)
      else MarkAll(syms.items)
  }

  /** The batches the blocks add to the symbol table, one per block in text
      order, and the error that stopped the replacement, if any.  The batches
      of the blocks before a failing one stay added. */
  datatype Batches = Batches(added: seq<seq<JsVal>>, failure: Option<Error>)

  function IncludeBatches(blocks: seq<string>, load: string -> Result<JsVal>): (r: Batches)
    ensures |r.added| <= |blocks|
    ensures r.failure.None? ==> |r.added| == |blocks|
  {
    if |blocks| == 0 then Batches([], None)
    else
      var p := IncludeBatches(blocks[..|blocks| - 1], load);
      if p.failure.Some? then p
      else match BlockSymbols(load(blocks[|blocks| - 1]))
        case Err(e) => p.(failure := Some(e))
        case Ok(b) => Batches(p.added + [b], None)
  }

  /** Every batch is the marked symbol list of its own block, and a failure is
      the failure of the first block that could not be read. */
  lemma {:induction false} IncludeBatchesSpec(blocks: seq<string>, load: string -> Result<JsVal>)
    ensures var r := IncludeBatches(blocks, load);
      (forall i :: 0 <= i < |r.added| ==> BlockSymbols(load(blocks[i])) == Ok(r.added[i]))
      && (r.failure.Some? ==> |r.added| < |blocks| && BlockSymbols(load(blocks[|r.added|])) == Err(r.failure.value))
      && (r.failure.None? <==> forall i :: 0 <= i < |blocks| ==> BlockSymbols(load(blocks[i])).Ok?)
  {
    if |blocks| > 0 {
      var init := blocks[..|blocks| - 1];
      IncludeBatchesSpec(init, load);
      assert forall i :: 0 <= i < |init| ==> init[i] == blocks[i];
    }
  }

  /** An array symbol keeps its first three fields and its own comment, and
      gets the includes comment where it had none. */
  lemma ArraySymbolComment(items: seq<JsVal>)
    ensures var r := WithIncludeComment(Arr(items)).value.items;
      |r| >= 4
      && (forall i :: 0 <= i < |items| && i != 3 ==> r[i] == items[i])
      && r[3] == (if |items| > 3 && !Nullish(items[3]) then items[3] else Str(INCLUDE_COMMENT))
  {
  }
}

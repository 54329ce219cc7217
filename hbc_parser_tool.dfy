// The opcode-definition parser of hbc_parser_tool: it reads the lines of Hermes'
// BytecodeList.def one by one and builds an insertion-ordered table from opcode names to
// their operands, then writes every operand out with a tag for its kind.

module HbcParserTool {
  import opened Wrappers

  const NO_MATCH := "called `Option::unwrap()` on a `None` value"
  const NOT_A_NUMBER := "called `Result::unwrap()` on an `Err` value: ParseIntError"
  const SUB_OVERFLOW := "attempt to subtract with overflow"
  const INDEX_OUT_OF_BOUNDS := "index out of bounds"
  const EXPLICIT_PANIC := "explicit panic"

  /** `OpcodeArg`: an operand type name and what it refers to. */
  datatype OpcodeArg = OpcodeArg(value: string, isString: bool, isFunction: bool, isBigInt: bool)

  /** One entry of the `IndexMap`: an opcode name and its operands. */
  datatype Entry = Entry(name: string, args: seq<OpcodeArg>)

  /** The three `OPERAND_*_ID` declarations. */
  datatype Flag = StringId | FunctionId | BigIntId

  /* ---------- the insertion-ordered map ---------- */

  function Keys(es: seq<Entry>): (ks: seq<string>)
    ensures |ks| == |es| && forall k :: 0 <= k < |es| ==> ks[k] == es[k].name
  {
    if es == [] then [] else [es[0].name] + Keys(es[1..])
  }

  predicate DistinctKeys(es: seq<Entry>)
  {
    forall i, j :: 0 <= i < j < |es| ==> es[i].name != es[j].name
  }

  /** `get`: the operands stored under `k`. */
  function Get(es: seq<Entry>, k: string): (r: Option<seq<OpcodeArg>>)
    ensures r.Some? <==> k in Keys(es)
  {
    if es == [] then None
    else if es[0].name == k then Some(es[0].args)
    else Get(es[1..], k)
  }

  /** `insert`: a key already present keeps its place and takes the new value; a new key
   *  goes last. */
  function Put(es: seq<Entry>, k: string, v: seq<OpcodeArg>): (r: seq<Entry>)
  {
    if es == [] then [Entry(k, v)]
    else if es[0].name == k then [Entry(k, v)] + es[1..]
    else [es[0]] + Put(es[1..], k, v)
  }

  /** After `insert`, the key holds the new value and every other key its old one. */
  lemma {:induction false} GetPut(es: seq<Entry>, k: string, v: seq<OpcodeArg>, q: string)
    ensures Get(Put(es, k, v), q) == if q == k then Some(v) else Get(es, q)
  {
    if es != [] && es[0].name != k {
      GetPut(es[1..], k, v, q);
      assert Put(es, k, v)[1..] == Put(es[1..], k, v);
    }
  }

  /** `insert` keeps the order of the keys and appends a key it has not seen. */
  lemma {:induction false} KeysPut(es: seq<Entry>, k: string, v: seq<OpcodeArg>)
    ensures Keys(Put(es, k, v)) == if k in Keys(es) then Keys(es) else Keys(es) + [k]
  {
    if es != [] && es[0].name != k {
      KeysPut(es[1..], k, v);
      assert Keys(es) == [es[0].name] + Keys(es[1..]);
    }
  }

  /** Keys stay distinct under `insert`. */
  lemma PutDistinct(es: seq<Entry>, k: string, v: seq<OpcodeArg>)
    requires DistinctKeys(es)
    ensures DistinctKeys(Put(es, k, v))
  {
    KeysPut(es, k, v);
    var ks := Keys(Put(es, k, v));
    assert forall i, j :: 0 <= i < j < |ks| ==> ks[i] != ks[j];
  }

  /** `insert` keeps the keys it found distinct and in their order. */
  lemma PutKeepsKeys(es: seq<Entry>, k: string, v: seq<OpcodeArg>)
    requires DistinctKeys(es)
    ensures DistinctKeys(Put(es, k, v)) && Keys(es) <= Keys(Put(es, k, v))
  {
    KeysPut(es, k, v);
    PutDistinct(es, k, v);
  }

  /* ---------- operand flags ---------- */

  function Flagged(a: OpcodeArg, flag: Flag): OpcodeArg
  {
    match flag
    case StringId => a.(isString := true)
    case FunctionId => a.(isFunction := true)
    case BigIntId => a.(isBigInt := true)
  }

  /** `outmap.get_mut(name).unwrap()[index].is_… = true`. */
  function MarkOperand(es: seq<Entry>, name: string, index: int, flag: Flag): (r: Result<seq<Entry>>)
  {
    match Get(es, name)
    case None => Err(NO_MATCH)
    case Some(args) =>
      if 0 <= index < |args| then Ok(Put(es, name, args[index := Flagged(args[index], flag)]))
      else Err(INDEX_OUT_OF_BOUNDS)
  }

  /** Marking an operand succeeds exactly when the opcode is defined and has that operand;
   *  it then sets that one flag and leaves the keys and every other entry as they were. */
  lemma MarkOperandEffect(es: seq<Entry>, name: string, index: int, flag: Flag)
    ensures MarkOperand(es, name, index, flag).Ok? <==> Get(es, name).Some? && 0 <= index < |Get(es, name).value|
    ensures MarkOperand(es, name, index, flag).Ok? ==>
      var es' := MarkOperand(es, name, index, flag).value;
      var args := Get(es, name).value;
      && Keys(es') == Keys(es)
      && Get(es', name) == Some(args[index := Flagged(args[index], flag)])
      && forall q :: q != name ==> Get(es', q) == Get(es, q)
  {
    if Get(es, name).Some? {
      var args := Get(es, name).value;
      if 0 <= index < |args| {
        var v := args[index := Flagged(args[index], flag)];
        KeysPut(es, name, v);
        forall q {
          GetPut(es, name, v, q);
        }
      }
    }
  }

  /* ---------- the three regular expressions ---------- */

  /** `\w`, over ASCII. */
  predicate IsWordChar(c: char)
  {
    'a' <= c <= 'z' || 'A' <= c <= 'Z' || '0' <= c <= '9' || c == '_'
  }

  predicate IsDigit(c: char)
  {
    '0' <= c <= '9'
  }

  predicate IsWord(w: string)
  {
    |w| > 0 && forall k :: 0 <= k < |w| ==> IsWordChar(w[k])
  }

  /** The length of the run of word characters `s` starts with. */
  function WordLen(s: string): (n: nat)
    ensures n <= |s|
  {
    if s != [] && IsWordChar(s[0]) then 1 + WordLen(s[1..]) else 0
  }

  /** `(, \w+)*` at the start of `s`, as far as it goes: the words met and the length
   *  taken. */
  datatype Words = Words(words: seq<string>, len: nat)

  function MoreWords(s: string): (r: Words)
    ensures r.len <= |s|
    decreases |s|
  {
    if 2 < |s| && s[0] == ',' && s[1] == ' ' && IsWordChar(s[2]) then
      var n := WordLen(s[2..]);
      var more := MoreWords(s[2 + n..]);
      Words([s[2..2 + n]] + more.words, 2 + n + more.len)
    else Words([], 0)
  }

  /** A match of `\((\w+)((, \w+)*)\)`: the first word and the words after it. */
  datatype Call = Call(name: string, rest: seq<string>)

  /** The match at the start of `s`, if any. A word is followed by `,` or `)` in any
   *  match, so backtracking never finds a match the longest runs miss. */
  function CallAt(s: string): (r: Option<Call>)
  {
    if 1 < |s| && s[0] == '(' && IsWordChar(s[1]) then
      var n := WordLen(s[1..]);
      var more := MoreWords(s[1 + n..]);
      var k := 1 + n + more.len;
      if k < |s| && s[k] == ')' then Some(Call(s[1..1 + n], more.words)) else None
    else None
  }

  /** The two patterns the source searches for with a parenthesised list:
   *  `\((\w+)((, \w+)*)\)` and `\((\w+), (\w+)\)`. */
  datatype Shape = AnyWords | TwoWords

  predicate Fits(c: Call, shape: Shape)
  {
    shape == AnyWords || |c.rest| == 1
  }

  /** `Regex::captures`: the leftmost match. */
  function FindCall(s: string, shape: Shape): (r: Option<Call>)
    ensures r.Some? ==> Fits(r.value, shape)
  {
    if s == [] then None
    else
      var c := CallAt(s);
      if c.Some? && Fits(c.value, shape) then c else FindCall(s[1..], shape)
  }

  /** A match of `(\d)\((\w+)\)`: the digit and the name. */
  datatype Jump = Jump(digit: char, name: string)

  /** The leftmost match of `(\d)\((\w+)\)`. */
  function FindJump(s: string): (r: Option<Jump>)
    ensures r.Some? ==> IsDigit(r.value.digit)
  {
    if s == [] then None
    else
      var c := CallAt(s[1..]);
      if IsDigit(s[0]) && c.Some? && c.value.rest == [] then Some(Jump(s[0], c.value.name))
      else FindJump(s[1..])
  }

  /* ---------- `str::parse::<u32>` ---------- */

  function DigitValue(c: char): nat
    requires IsDigit(c)
  {
    c as int - '0' as int
  }

  function DigitsValue(w: string): nat
    requires forall k :: 0 <= k < |w| ==> IsDigit(w[k])
  {
    if w == [] then 0 else DigitsValue(w[..|w| - 1]) * 10 + DigitValue(w[|w| - 1])
  }

  /** `parse::<u32>().unwrap()`: decimal digits whose value fits in 32 bits. */
  function ParseU32(w: string): (r: Result<nat>)
    ensures r.Ok? ==> r.value < 0x1_0000_0000
  {
    if w != [] && forall k :: 0 <= k < |w| ==> IsDigit(w[k]) then
      var n := DigitsValue(w);
      if n < 0x1_0000_0000 then Ok(n) else Err(NOT_A_NUMBER)
    else Err(NOT_A_NUMBER)
  }

  /** The decimal digits of `n`. */
  function Decimal(n: nat): (w: string)
    ensures |w| > 0 && forall k :: 0 <= k < |w| ==> IsDigit(w[k])
  {
    var d := ['0' + (n % 10) as char];
    if n < 10 then d else Decimal(n / 10) + d
  }

  lemma {:induction false} DigitsValueDecimal(n: nat)
    ensures DigitsValue(Decimal(n)) == n
  {
    var w := Decimal(n);
    if n >= 10 {
      assert w[..|w| - 1] == Decimal(n / 10);
      DigitsValueDecimal(n / 10);
    }
  }

  lemma DecimalIsWord(n: nat)
    ensures IsWord(Decimal(n))
  {
    var w := Decimal(n);
    forall k | 0 <= k < |w| ensures IsWordChar(w[k]) {
      assert IsDigit(w[k]);
    }
  }

  /** A 32-bit number written in decimal parses back to itself. */
  lemma ParseDecimal(n: nat)
    requires n < 0x1_0000_0000
    ensures ParseU32(Decimal(n)) == Ok(n)
  {
    DigitsValueDecimal(n);
  }

  /* ---------- one line of BytecodeList.def ---------- */

  predicate StartsWith(s: string, p: string)
  {
    |p| <= |s| && s[..|p|] == p
  }

  function OperandPrefix(flag: Flag): string
  {
    match flag
    case StringId => "OPERAND_STRING_ID"
    case FunctionId => "OPERAND_FUNCTION_ID"
    case BigIntId => "OPERAND_BIGINT_ID"
  }

  /** A line that starts with `p` does not start with a `q` that differs from `p` at `k`. */
  lemma Mismatch(s: string, p: string, q: string, k: nat)
    requires StartsWith(s, p) && k < |p| && k < |q| && p[k] != q[k]
    ensures !StartsWith(s, q)
  {
    assert s[k] == p[k];
  }

  lemma ClassifyOpcode(line: string)
    requires StartsWith(line, "DEFINE_OPCODE_")
    ensures Classify(line) == OpcodeDef
  {
  }

  lemma ClassifyOperand(line: string, flag: Flag)
    requires StartsWith(line, OperandPrefix(flag))
    ensures Classify(line) == OperandId(flag)
  {
    Mismatch(line, OperandPrefix(flag), "DEFINE_OPCODE_", 0);
    if flag != StringId {
      Mismatch(line, OperandPrefix(flag), OperandPrefix(StringId), 8);
    }
    if flag == BigIntId {
      Mismatch(line, OperandPrefix(flag), OperandPrefix(FunctionId), 8);
    }
  }

  lemma ClassifyJump(line: string)
    requires StartsWith(line, "DEFINE_JUMP_")
    ensures Classify(line) == JumpDef
  {
    Mismatch(line, "DEFINE_JUMP_", "DEFINE_OPCODE_", 7);
    Mismatch(line, "DEFINE_JUMP_", OperandPrefix(StringId), 0);
    Mismatch(line, "DEFINE_JUMP_", OperandPrefix(FunctionId), 0);
    Mismatch(line, "DEFINE_JUMP_", OperandPrefix(BigIntId), 0);
  }

  datatype LineKind = Blank | OpcodeDef | OperandId(flag: Flag) | JumpDef | Ignored | Unhandled

  /** The chain of `starts_with` tests in the loop of `main`. */
  function Classify(line: string): (r: LineKind)
    ensures r == Blank <==> line == []
  {
    if line == [] then Blank
    else if StartsWith(line, "DEFINE_OPCODE_") then OpcodeDef
    else if StartsWith(line, OperandPrefix(StringId)) then OperandId(StringId)
    else if StartsWith(line, OperandPrefix(FunctionId)) then OperandId(FunctionId)
    else if StartsWith(line, OperandPrefix(BigIntId)) then OperandId(BigIntId)
    else if StartsWith(line, "DEFINE_JUMP_") then JumpDef
    else if StartsWith(line, "ASSERT_") || StartsWith(line, "DEFINE_RET_TARGET") || StartsWith(line, "DEFINE_OPERAND_TYPE")
         || StartsWith(line, "#") || StartsWith(line, "//") || StartsWith(line, "/*") || StartsWith(line, " *")
         || StartsWith(line, "  ") then Ignored
    else Unhandled
  }

  /** Operands as the source builds them: no flag set. */
  function Plain(values: seq<string>): (args: seq<OpcodeArg>)
    ensures |args| == |values|
    ensures forall k :: 0 <= k < |values| ==> args[k] == OpcodeArg(values[k], false, false, false)
  {
    if values == [] then [] else [OpcodeArg(values[0], false, false, false)] + Plain(values[1..])
  }

  /** The registers a `DEFINE_JUMP_k` opcode takes after its address, `k` in 1..3. */
  function JumpRegisters(digit: char): Result<seq<string>>
  {
    if digit == '1' then Ok([])
    else if digit == '2' then Ok(["Reg8"])
    else if digit == '3' then Ok(["Reg8", "Reg8"])
    else Err(EXPLICIT_PANIC)
  }

  /** The body of the loop of `main` for one line. */
  function Step(es: seq<Entry>, line: string): (r: Result<seq<Entry>>)
  {
    match Classify(line)
    case OpcodeDef =>
      var c :- OptionToResult(FindCall(line, AnyWords));
      Ok(Put(es, c.name, Plain(c.rest)))
    case OperandId(flag) =>
      var c :- OptionToResult(FindCall(line, TwoWords));
      var n :- ParseU32(c.rest[0]);
      if n == 0 then Err(SUB_OVERFLOW) else MarkOperand(es, c.name, n - 1, flag)
    case JumpDef =>
      var j :- OptionToResult(FindJump(line));
      var regs :- JumpRegisters(j.digit);
      Ok(Put(Put(es, j.name, Plain(["Addr8"] + regs)), j.name + "Long", Plain(["Addr32"] + regs)))
    case _ => Ok(es)
  }

  function OptionToResult<T>(o: Option<T>): Result<T>
  {
    if o.Some? then Ok(o.value) else Err(NO_MATCH)
  }

  /** Every line keeps the keys it found, in their order, and keeps them distinct. */
  lemma StepKeepsKeys(es: seq<Entry>, line: string)
    requires DistinctKeys(es) && Step(es, line).Ok?
    ensures DistinctKeys(Step(es, line).value)
    ensures Keys(es) <= Keys(Step(es, line).value)
  {
    match Classify(line)
    case OpcodeDef => OpcodeDefKeepsKeys(es, line);
    case OperandId(flag) => OperandIdKeepsKeys(es, line, flag);
    case JumpDef => JumpDefKeepsKeys(es, line);
    case _ =>
  }

  lemma OpcodeDefKeepsKeys(es: seq<Entry>, line: string)
    requires DistinctKeys(es) && Classify(line) == OpcodeDef && Step(es, line).Ok?
    ensures DistinctKeys(Step(es, line).value) && Keys(es) <= Keys(Step(es, line).value)
  {
    var c := FindCall(line, AnyWords).value;
    PutKeepsKeys(es, c.name, Plain(c.rest));
  }

  lemma OperandIdKeepsKeys(es: seq<Entry>, line: string, flag: Flag)
    requires DistinctKeys(es) && Classify(line) == OperandId(flag) && Step(es, line).Ok?
    ensures DistinctKeys(Step(es, line).value) && Keys(es) <= Keys(Step(es, line).value)
  {
    var c := FindCall(line, TwoWords).value;
    var n := ParseU32(c.rest[0]).value;
    StepOperand(es, line, flag);
    var args := Get(es, c.name).value;
    assert MarkOperand(es, c.name, n - 1, flag).value == Put(es, c.name, args[n - 1 := Flagged(args[n - 1], flag)]);
    PutKeepsKeys(es, c.name, args[n - 1 := Flagged(args[n - 1], flag)]);
  }

  /** An operand line that matches and names a 32-bit number marks that operand. */
  lemma StepOperand(es: seq<Entry>, line: string, flag: Flag)
    requires Classify(line) == OperandId(flag) && Step(es, line).Ok?
    ensures var c := FindCall(line, TwoWords);
      && c.Some? && ParseU32(c.value.rest[0]).Ok? && ParseU32(c.value.rest[0]).value != 0
      && Step(es, line) == MarkOperand(es, c.value.name, ParseU32(c.value.rest[0]).value - 1, flag)
  {
  }

  lemma JumpDefKeepsKeys(es: seq<Entry>, line: string)
    requires DistinctKeys(es) && Classify(line) == JumpDef && Step(es, line).Ok?
    ensures DistinctKeys(Step(es, line).value) && Keys(es) <= Keys(Step(es, line).value)
  {
    var j := FindJump(line).value;
    var regs := JumpRegisters(j.digit).value;
    var mid := Put(es, j.name, Plain(["Addr8"] + regs));
    PutKeepsKeys(es, j.name, Plain(["Addr8"] + regs));
    PutKeepsKeys(mid, j.name + "Long", Plain(["Addr32"] + regs));
  }

  /** Blank lines, the ignored declarations and lines the tool does not know leave the
   *  table as it is. */
  lemma PassiveLinesKeepTable(es: seq<Entry>, line: string)
    requires Classify(line) in {Blank, Ignored, Unhandled}
    ensures Step(es, line) == Ok(es)
  {
  }

  /* ---------- well-formed declarations ---------- */

  /** `, w` for each word. */
  function Tail(ws: seq<string>): string
  {
    if ws == [] then [] else ", " + ws[0] + Tail(ws[1..])
  }

  /** `(name, w1, w2, …)`. */
  function Render(name: string, ws: seq<string>): string
  {
    "(" + name + Tail(ws) + ")"
  }

  predicate AllWords(ws: seq<string>)
  {
    forall k :: 0 <= k < |ws| ==> IsWord(ws[k])
  }

  /** What follows a word in a well-formed list. */
  predicate Delimited(post: string)
  {
    post == [] || !IsWordChar(post[0])
  }

  lemma {:induction false} WordLenOf(w: string, post: string)
    requires IsWord(w) && Delimited(post)
    ensures WordLen(w + post) == |w|
    decreases |w|
  {
    if |w| > 1 {
      assert (w + post)[1..] == w[1..] + post;
      WordLenOf(w[1..], post);
    } else {
      assert (w + post)[1..] == post;
    }
  }

  /** One round of `(, \w+)*`. */
  lemma MoreWordsStep(s: string, w: string, after: string)
    requires s == ", " + (w + after) && IsWord(w) && Delimited(after)
    ensures MoreWords(s) == Words([w] + MoreWords(after).words, 2 + |w| + MoreWords(after).len)
  {
    assert s[2..] == w + after;
    WordLenOf(w, after);
    assert s[2 + |w|..] == after;
    assert s[2..2 + |w|] == w;
  }

  lemma TailCons(ws: seq<string>, post: string)
    requires ws != []
    ensures Tail(ws) + post == ", " + (ws[0] + (Tail(ws[1..]) + post))
  {
    ConcatAssoc(", ", ws[0], Tail(ws[1..]), post);
  }

  lemma ConcatAssoc(a: string, b: string, c: string, d: string)
    ensures ((a + b) + c) + d == a + (b + (c + d))
  {
  }

  /** A list tail followed by `)` never continues a word. */
  lemma TailDelimited(ws: seq<string>, post: string)
    requires post != [] && post[0] == ')'
    ensures Delimited(Tail(ws) + post)
  {
    if ws != [] {
      assert (Tail(ws) + post)[0] == Tail(ws)[0] == ',';
    } else {
      assert Tail(ws) + post == post;
    }
  }

  lemma {:induction false} MoreWordsOf(ws: seq<string>, post: string)
    requires AllWords(ws) && post != [] && post[0] == ')'
    ensures MoreWords(Tail(ws) + post) == Words(ws, |Tail(ws)|)
    decreases |ws|
  {
    if ws != [] {
      var after := Tail(ws[1..]) + post;
      TailCons(ws, post);
      TailDelimited(ws[1..], post);
      MoreWordsStep(Tail(ws) + post, ws[0], after);
      MoreWordsOf(ws[1..], post);
      assert |Tail(ws)| == 2 + |ws[0]| + |Tail(ws[1..])|;
      assert [ws[0]] + ws[1..] == ws;
    } else {
      assert Tail(ws) + post == post;
    }
  }

  /** The pattern at an opening parenthesis followed by a whole word. */
  lemma CallAtWord(s: string, name: string, after: string)
    requires s == "(" + (name + after) && IsWord(name) && Delimited(after)
    ensures var m := MoreWords(after);
      var k := 1 + |name| + m.len;
      CallAt(s) == if k < |s| && s[k] == ')' then Some(Call(name, m.words)) else None
  {
    OpenSlices(s, name, after);
    WordLenOf(name, after);
  }

  lemma OpenSlices(s: string, name: string, after: string)
    requires s == "(" + (name + after) && name != []
    ensures 1 < |s| && s[0] == '(' && s[1] == name[0]
    ensures s[1..] == name + after && s[1 + |name|..] == after && s[1..1 + |name|] == name
  {
  }

  /** The pattern matches a well-formed list. */
  lemma CallAtRender(name: string, ws: seq<string>, post: string)
    requires IsWord(name) && AllWords(ws)
    ensures CallAt(Render(name, ws) + post) == Some(Call(name, ws))
  {
    var s := Render(name, ws) + post;
    var close := ")" + post;
    var after := Tail(ws) + close;
    assert s == "(" + (name + after);
    assert Delimited(after) by {
      if ws != [] {
        assert after[0] == ',';
      }
    }
    CallAtWord(s, name, after);
    MoreWordsOf(ws, close);
    assert after[|Tail(ws)|] == ')';
    assert s[1 + |name| + |Tail(ws)|] == after[|Tail(ws)|];
  }

  predicate NoOpenParen(p: string)
  {
    forall k :: 0 <= k < |p| ==> p[k] != '('
  }

  /** Characters other than `(` cannot start a match. */
  lemma {:induction false} FindCallSkips(pre: string, s: string, shape: Shape)
    requires NoOpenParen(pre)
    ensures FindCall(pre + s, shape) == FindCall(s, shape)
    decreases |pre|
  {
    if pre != [] {
      assert (pre + s)[1..] == pre[1..] + s;
      FindCallSkips(pre[1..], s, shape);
    } else {
      assert pre + s == s;
    }
  }

  /** Behind a prefix with no `(`, a well-formed list is the leftmost match. */
  lemma FoundAfter(pre: string, name: string, ws: seq<string>, post: string, shape: Shape)
    requires NoOpenParen(pre) && IsWord(name) && AllWords(ws) && Fits(Call(name, ws), shape)
    ensures FindCall(pre + Render(name, ws) + post, shape) == Some(Call(name, ws))
  {
    assert pre + Render(name, ws) + post == pre + (Render(name, ws) + post);
    FindCallSkips(pre, Render(name, ws) + post, shape);
    CallAtRender(name, ws, post);
    assert Render(name, ws) + post != [];
  }

  predicate NoDigit(p: string)
  {
    forall k :: 0 <= k < |p| ==> !IsDigit(p[k])
  }

  /** Characters other than digits cannot start a jump match. */
  lemma JumpPrefixNoDigit()
    ensures NoDigit("DEFINE_JUMP_")
  {
  }

  lemma {:induction false} JumpSkips(pre: string, s: string)
    requires NoDigit(pre)
    ensures FindJump(pre + s) == FindJump(s)
    decreases |pre|
  {
    if pre != [] {
      assert (pre + s)[1..] == pre[1..] + s;
      JumpSkips(pre[1..], s);
    } else {
      assert pre + s == s;
    }
  }

  /** `DEFINE_OPCODE_k(Name, Op1, …)` defines `Name` with those operands, no flag set. */
  lemma DefineOpcodeLine(es: seq<Entry>, arity: string, name: string, ops: seq<string>, post: string)
    requires NoOpenParen(arity) && IsWord(name) && AllWords(ops)
    ensures Step(es, "DEFINE_OPCODE_" + arity + Render(name, ops) + post) == Ok(Put(es, name, Plain(ops)))
  {
    var pre := "DEFINE_OPCODE_" + arity;
    var line := pre + Render(name, ops) + post;
    assert line[..14] == pre[..14];
    ClassifyOpcode(line);
    assert NoOpenParen(pre) by {
      assert forall k :: 0 <= k < |pre| ==> pre[k] == if k < 14 then "DEFINE_OPCODE_"[k] else arity[k - 14];
    }
    FoundAfter(pre, name, ops, post, AnyWords);
  }

  /** `OPERAND_STRING_ID(Name, n)` and its kin mark operand `n` (counting from 1) of
   *  `Name`; `n` = 0 overflows the subtraction. */
  lemma OperandLine(es: seq<Entry>, prefix: string, flag: Flag, name: string, n: nat, post: string)
    requires prefix == OperandPrefix(flag) && IsWord(name) && n < 0x1_0000_0000
    ensures Step(es, prefix + Render(name, [Decimal(n)]) + post)
         == if n == 0 then Err(SUB_OVERFLOW) else MarkOperand(es, name, n - 1, flag)
  {
    OperandLineMatches(prefix, flag, name, n, post);
    ParseDecimal(n);
  }

  lemma OperandLineMatches(prefix: string, flag: Flag, name: string, n: nat, post: string)
    requires prefix == OperandPrefix(flag) && IsWord(name)
    ensures var line := prefix + Render(name, [Decimal(n)]) + post;
      Classify(line) == OperandId(flag) && FindCall(line, TwoWords) == Some(Call(name, [Decimal(n)]))
  {
    var line := prefix + Render(name, [Decimal(n)]) + post;
    assert line[..|prefix|] == prefix;
    ClassifyOperand(line, flag);
    assert NoOpenParen(prefix);
    DecimalIsWord(n);
    FoundAfter(prefix, name, [Decimal(n)], post, TwoWords);
  }

  /** `DEFINE_JUMP_k(Name)` defines `Name` and `NameLong`, with an 8-bit and a 32-bit
   *  address and the registers of `JumpRegisters`; any `k` outside 1..3 panics. */
  lemma JumpLine(es: seq<Entry>, digit: char, name: string, post: string)
    requires IsDigit(digit) && IsWord(name)
    ensures var regs := JumpRegisters(digit);
      Step(es, "DEFINE_JUMP_" + [digit] + Render(name, []) + post)
      == if regs.Err? then Err(EXPLICIT_PANIC)
         else Ok(Put(Put(es, name, Plain(["Addr8"] + regs.value)), name + "Long", Plain(["Addr32"] + regs.value)))
  {
    JumpLineMatches(digit, name, post);
    StepJump(es, "DEFINE_JUMP_" + [digit] + Render(name, []) + post);
  }

  lemma JumpLineMatches(digit: char, name: string, post: string)
    requires IsDigit(digit) && IsWord(name)
    ensures var line := "DEFINE_JUMP_" + [digit] + Render(name, []) + post;
      Classify(line) == JumpDef && FindJump(line) == Some(Jump(digit, name))
  {
    var pre := "DEFINE_JUMP_";
    var line := pre + [digit] + Render(name, []) + post;
    assert line[..12] == pre;
    ClassifyJump(line);
    var rest := [digit] + (Render(name, []) + post);
    ConcatAssoc(pre, [digit], Render(name, []), post);
    JumpPrefixNoDigit();
    JumpSkips(pre, rest);
    assert rest[1..] == Render(name, []) + post;
    CallAtRender(name, [], post);
  }

  /** `DEFINE_JUMP_k` takes `k - 1` registers after the address, for `k` in 1..3 only. */
  lemma JumpRegistersCount(digit: char)
    requires IsDigit(digit)
    ensures JumpRegisters(digit).Ok? <==> '1' <= digit <= '3'
    ensures JumpRegisters(digit).Ok? ==>
      var regs := JumpRegisters(digit).value;
      |regs| == digit as int - '1' as int && forall k :: 0 <= k < |regs| ==> regs[k] == "Reg8"
  {
  }

  /** A jump line defines the two opcodes its match names, or panics on the digit. */
  lemma StepJump(es: seq<Entry>, line: string)
    requires Classify(line) == JumpDef && FindJump(line).Some?
    ensures var j := FindJump(line).value;
      var regs := JumpRegisters(j.digit);
      Step(es, line) == if regs.Err? then Err(regs.msg)
        else Ok(Put(Put(es, j.name, Plain(["Addr8"] + regs.value)), j.name + "Long", Plain(["Addr32"] + regs.value)))
  {
  }

  /* ---------- the whole file ---------- */

  /** The loop of `main` over all the lines; a panic ends it. */
  function ParseAll(es: seq<Entry>, lines: seq<string>): (r: Result<seq<Entry>>)
    decreases |lines|
  {
    if lines == [] then Ok(es)
    else
      var es' :- Step(es, lines[0]);
      ParseAll(es', lines[1..])
  }

  /** The finished table has distinct names, and the names it started with come first, in
   *  their order. */
  lemma {:induction false} ParseAllKeepsKeys(es: seq<Entry>, lines: seq<string>)
    requires DistinctKeys(es) && ParseAll(es, lines).Ok?
    ensures DistinctKeys(ParseAll(es, lines).value)
    ensures Keys(es) <= Keys(ParseAll(es, lines).value)
    decreases |lines|
  {
    if lines != [] {
      var es' := Step(es, lines[0]).value;
      StepKeepsKeys(es, lines[0]);
      ParseAllKeepsKeys(es', lines[1..]);
      var ks := Keys(ParseAll(es, lines).value);
      assert ks[..|Keys(es')|][..|Keys(es)|] == ks[..|Keys(es)|];
    }
  }

  /** The `IndexMap` that `main` fills. */
  class OpcodeTable {
    var entries: seq<Entry>

    constructor ()
      ensures entries == []
    {
      entries := [];
    }

    /** `outmap.insert(name, operands)`. */
    method Insert(name: string, args: seq<OpcodeArg>)
      modifies this
      ensures entries == Put(old(entries), name, args)
    {
      entries := Put(entries, name, args);
    }

    /** `outmap.get_mut(name).unwrap()[index].is_… = true`. */
    method Mark(name: string, index: int, flag: Flag) returns (r: Result<bool>)
      modifies this
      ensures MarkOperand(old(entries), name, index, flag) == (if r.Ok? then Ok(entries) else Err(r.msg))
    {
      var args := Get(entries, name);
      if args.None? {
        return Err(NO_MATCH);
      }
      if !(0 <= index < |args.value|) {
        return Err(INDEX_OUT_OF_BOUNDS);
      }
      var a := args.value;
      Insert(name, a[index := Flagged(a[index], flag)]);
      r := Ok(true);
    }

    /** One turn of the loop of `main`. */
    method Apply(line: string) returns (r: Result<bool>)
      modifies this
      ensures Step(old(entries), line) == (if r.Ok? then Ok(entries) else Err(r.msg))
    {
      match Classify(line) {
        case OpcodeDef => r := ApplyOpcodeDef(line);
        case OperandId(flag) => r := ApplyOperandId(line, flag);
        case JumpDef => r := ApplyJumpDef(line);
        case _ => r := Ok(true);
      }
    }

    /** A line `DEFINE_OPCODE_n(Name, …)`: the operand types become a new entry. */
    method ApplyOpcodeDef(line: string) returns (r: Result<bool>)
      requires Classify(line) == OpcodeDef
      modifies this
      ensures Step(old(entries), line) == (if r.Ok? then Ok(entries) else Err(r.msg))
    {
      var c := FindCall(line, AnyWords);
      if c.None? {
        return Err(NO_MATCH);
      }
      Insert(c.value.name, Plain(c.value.rest));
      r := Ok(true);
    }

    /** A line `OPERAND_…_ID(Name, n)`: operand `n` of `Name` gets the flag. */
    method ApplyOperandId(line: string, flag: Flag) returns (r: Result<bool>)
      requires Classify(line) == OperandId(flag)
      modifies this
      ensures Step(old(entries), line) == (if r.Ok? then Ok(entries) else Err(r.msg))
    {
      var c := FindCall(line, TwoWords);
      if c.None? {
        return Err(NO_MATCH);
      }
      var n := ParseU32(c.value.rest[0]);
      if n.Err? {
        return Err(n.msg);
      }
      if n.value == 0 {
        return Err(SUB_OVERFLOW);
      }
      r := Mark(c.value.name, n.value - 1, flag);
    }

    /** A line `DEFINE_JUMP_n(Name)`: a short and a long jump entry. */
    method ApplyJumpDef(line: string) returns (r: Result<bool>)
      requires Classify(line) == JumpDef
      modifies this
      ensures Step(old(entries), line) == (if r.Ok? then Ok(entries) else Err(r.msg))
    {
      var j := FindJump(line);
      if j.None? {
        return Err(NO_MATCH);
      }
      var regs := JumpRegisters(j.value.digit);
      if regs.Err? {
        return Err(regs.msg);
      }
      Insert(j.value.name, Plain(["Addr8"] + regs.value));
      Insert(j.value.name + "Long", Plain(["Addr32"] + regs.value));
      r := Ok(true);
    }
  }

  /** `main` from the first line to the last: the table it would serialise. */
  method ParseDefinitions(lines: seq<string>) returns (r: Result<seq<Entry>>)
    ensures r == ParseAll([], lines)
    ensures r.Ok? ==> DistinctKeys(r.value)
  {
    var table := new OpcodeTable();
    for i := 0 to |lines|
      invariant ParseAll([], lines) == ParseAll(table.entries, lines[i..])
    {
      assert lines[i..][1..] == lines[i + 1..];
      var step := table.Apply(lines[i]);
      if step.Err? {
        return Err(step.msg);
      }
    }
    assert lines[|lines|..] == [];
    r := Ok(table.entries);
    if r.Ok? {
      ParseAllKeepsKeys([], lines);
    }
  }

  /* ---------- serialisation ---------- */

  /** `OpcodeArg::serialize`: the value tagged with the first flag set. */
  function Serialize(a: OpcodeArg): string
  {
    if a.isString then a.value + ":S"
    else if a.isFunction then a.value + ":F"
    else if a.isBigInt then a.value + ":B"
    else a.value
  }

  function TagOf(s: string): Option<char>
  {
    if |s| >= 2 && s[|s| - 2] == ':' && s[|s| - 1] in {'S', 'F', 'B'} then Some(s[|s| - 1]) else None
  }

  /** Reads a serialised operand back. */
  function Deserialize(s: string): (a: OpcodeArg)
  {
    match TagOf(s)
    case Some(t) => OpcodeArg(s[..|s| - 2], t == 'S', t == 'F', t == 'B')
    case None => OpcodeArg(s, false, false, false)
  }

  /** The operand with only the flag `serialize` writes. */
  function Canonical(a: OpcodeArg): OpcodeArg
  {
    OpcodeArg(a.value, a.isString, !a.isString && a.isFunction, !a.isString && !a.isFunction && a.isBigInt)
  }

  /** Every serialised operand reads back to what `serialize` kept of it, as long as its
   *  value does not itself end in a tag. */
  lemma SerializeRoundTrip(a: OpcodeArg)
    requires TagOf(a.value).None?
    ensures Deserialize(Serialize(a)) == Canonical(a)
  {
    var s := Serialize(a);
    if a.isString || a.isFunction || a.isBigInt {
      assert s[..|s| - 2] == a.value;
    }
  }

  /** Every string is the serialisation of the operand it reads back to. */
  lemma DeserializeRoundTrip(s: string)
    ensures Serialize(Deserialize(s)) == s
  {
    if TagOf(s).Some? {
      assert s[..|s| - 2] + [':', s[|s| - 1]] == s;
    }
  }

  /** Operand names the parser takes from a line are words, which never end in a tag. */
  lemma WordsHaveNoTag(w: string)
    requires IsWord(w)
    ensures TagOf(w).None?
  {
    if |w| >= 2 {
      assert IsWordChar(w[|w| - 2]);
    }
  }
}

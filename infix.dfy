/**
 * The infix-to-postfix example ARgorithm. The expression is read one
 * character at a time: a letter goes straight to the output, `(` is pushed,
 * `)` pops operators to the output down to the matching `(`, and any other
 * character pops the operators of higher or equal precedence before it is
 * pushed itself. At the end the remaining stack is emptied into the output.
 *
 * `Scan` and `Flush` are the conversion on values; `Run` performs it with the
 * toolkit's String and Stack, and its contract ties the records it leaves
 * behind to that conversion.
 */
module InfixToPostfix {
  import opened Values
  import opened Utils
  import opened Stacks
  import opened Strings

  /** `ch.isalpha()`, over the ASCII letters. */
  predicate IsAlpha(c: char)
  {
    'a' <= c <= 'z' || 'A' <= c <= 'Z'
  }

  /** The `order` table of `precedence`. */
  function Order(s: string): Option<int>
  {
    if s == "+" || s == "-" then Some(1)
    else if s == "*" || s == "/" then Some(2)
    else if s == "^" then Some(3)
    else None
  }

  /**
   * `precedence(a, b)`: whether `a` binds no tighter than `b`, so that `b`
   * must leave the stack first. A `(` below never leaves; otherwise a string
   * missing from the table raises KeyError, `a` being looked up first.
   */
  function Precedence(a: string, b: string): Result<bool>
  {
    if b == "(" then Ok(false)
    else if Order(a).None? then Err(KeyError(VStr(a)))
    else if Order(b).None? then Err(KeyError(VStr(b)))
    else Ok(Order(a).value <= Order(b).value)
  }

  predicate IsOperator(s: string)
  {
    s in {"+", "-", "*", "/", "^"}
  }

  /**
   * Between operators the test is a total preorder in which equal levels
   * pop, so every operator is treated as left-associative, `^` included;
   * only the five operators are looked up without error.
   */
  lemma PrecedenceOrders(a: string, b: string, c: string)
    ensures IsOperator(a) && IsOperator(b) ==> Precedence(a, b).Ok?
    ensures IsOperator(a) ==> Precedence(a, a) == Ok(true)
    ensures IsOperator(a) && IsOperator(b) ==> Precedence(a, b) == Ok(true) || Precedence(b, a) == Ok(true)
    ensures Precedence(a, b) == Ok(true) && Precedence(b, c) == Ok(true) ==> Precedence(a, c) == Ok(true)
    ensures Precedence(a, b).Ok? && b != "(" ==> IsOperator(a) && IsOperator(b)
    ensures Precedence(a, "(") == Ok(false)
  {
  }

  const InvalidOperator := ClientError("Invalid operator used")
  const InvalidInfix := ClientError("Invalid infix expression")

  /** The conversion between two characters: the output so far and the stack, top last. */
  datatype Machine = Machine(out: string, stack: string)

  function Top(m: Machine): char
    requires m.stack != []
  {
    m.stack[|m.stack| - 1]
  }

  /** The top of the stack popped and appended to the output. */
  function Moved(m: Machine): Machine
    requires m.stack != []
  {
    Machine(m.out + [Top(m)], m.stack[..|m.stack| - 1])
  }

  /**
   * The `)` branch: operators are moved to the output until a `(` is on top,
   * which is then dropped; popping an empty stack raises.
   */
  function CloseGroup(m: Machine): Result<Machine>
    decreases |m.stack|
  {
    if m.stack == [] then Err(EmptyStack)
    else if Top(m) == '(' then Ok(Machine(m.out, m.stack[..|m.stack| - 1]))
    else CloseGroup(Moved(m))
  }

  /**
   * The operator branch: operators that `ch` does not outrank are moved to
   * the output, then `ch` is pushed; a KeyError of `precedence` becomes a
   * client error.
   */
  function PushOperator(m: Machine, ch: char): Result<Machine>
    decreases |m.stack|
  {
    if m.stack == [] then Ok(Machine(m.out, m.stack + [ch]))
    else match Precedence([ch], [Top(m)])
      case Err(_) => Err(InvalidOperator)
      case Ok(higher) =>
        if higher then PushOperator(Moved(m), ch) else Ok(Machine(m.out, m.stack + [ch]))
  }

  /** The body of the `for ch in exp` loop. */
  function Step(m: Machine, ch: char): Result<Machine>
  {
    if IsAlpha(ch) then Ok(Machine(m.out + [ch], m.stack))
    else if ch == '(' then Ok(Machine(m.out, m.stack + [ch]))
    else if ch == ')' then CloseGroup(m)
    else PushOperator(m, ch)
  }

  /** The machine after the first `n` characters of `e`, or the first error raised. */
  function Scan(e: string, n: nat): Result<Machine>
    requires n <= |e|
    decreases n
  {
    if n == 0 then Ok(Machine([], []))
    else match Scan(e, n - 1)
      case Err(x) => Err(x)
      case Ok(m) => Step(m, e[n - 1])
  }

  /** The final loop: the stack is popped into the output until it is empty. */
  function Flush(m: Machine): string
    decreases |m.stack|
  {
    if m.stack == [] then m.out else Flush(Moved(m))
  }

  /** The postfix expression `run` leaves in `output`, or the error it raises. */
  function Convert(e: string): Result<string>
  {
    match Scan(e, |e|)
    case Err(x) => Err(x)
    case Ok(m) => Ok(Flush(m))
  }

  // ----- Properties of the conversion -----

  function Reversed(s: string): (r: string)
    ensures |r| == |s|
    decreases |s|
  {
    if s == [] then [] else [s[|s| - 1]] + Reversed(s[..|s| - 1])
  }

  lemma {:induction false} ReversedKeeps(s: string)
    ensures multiset(Reversed(s)) == multiset(s)
    decreases |s|
  {
    if s != [] {
      ReversedKeeps(s[..|s| - 1]);
      assert s == s[..|s| - 1] + [s[|s| - 1]];
    }
  }

  /** Flushing appends the stack to the output from the top down. */
  lemma {:induction false} FlushReverses(m: Machine)
    ensures Flush(m) == m.out + Reversed(m.stack)
    decreases |m.stack|
  {
    if m.stack != [] {
      FlushReverses(Moved(m));
    }
  }

  /** Once an error is raised, the rest of the expression is not looked at. */
  lemma {:induction false} ScanErrorSticks(e: string, n: nat, k: nat)
    requires n <= k <= |e| && Scan(e, n).Err?
    ensures Scan(e, k) == Scan(e, n)
    decreases k
  {
    if k > n {
      ScanErrorSticks(e, n, k - 1);
    }
  }

  /** `)` succeeds exactly when a `(` is on the stack; otherwise the empty stack is popped. */
  lemma {:induction false} CloseGroupSpec(m: Machine)
    ensures CloseGroup(m).Err? <==> '(' !in m.stack
    ensures CloseGroup(m).Err? ==> CloseGroup(m).error == EmptyStack
    decreases |m.stack|
  {
    if m.stack != [] {
      var init := m.stack[..|m.stack| - 1];
      assert m.stack == init + [Top(m)];
      CloseGroupSpec(Moved(m));
    }
  }

  /**
   * With `above` the operators over the topmost `(`, `)` moves them to the
   * output top first and drops that `(`.
   */
  lemma {:induction false} CloseGroupMovesAbove(m: Machine, below: string, above: string)
    requires m.stack == below + ['('] + above && '(' !in above
    ensures CloseGroup(m) == Ok(Machine(m.out + Reversed(above), below))
    decreases |above|
  {
    if above == [] {
      assert m.stack[..|m.stack| - 1] == below;
      assert m.out + Reversed(above) == m.out;
    } else {
      var last := |above| - 1;
      PeelAbove(m.stack, below, above);
      var m' := Moved(m);
      assert m'.out == m.out + [above[last]];
      assert CloseGroup(m) == CloseGroup(m');
      CloseGroupMovesAbove(m', below, above[..last]);
      assert Reversed(above) == [above[last]] + Reversed(above[..last]);
      AppendAssoc(m.out, [above[last]], Reversed(above[..last]));
    }
  }

  /** The top of `below + ['('] + above` is the last of `above`. */
  lemma PeelAbove(s: string, below: string, above: string)
    requires s == below + ['('] + above && '(' !in above && above != []
    ensures s[|s| - 1] == above[|above| - 1] != '('
    ensures s[..|s| - 1] == below + ['('] + above[..|above| - 1]
    ensures '(' !in above[..|above| - 1]
  {
    var last := |above| - 1;
    assert above[last] in above;
    assert '(' !in above[..last] by {
      forall x | x in above[..last] ensures x in above {
      }
    }
  }

  /** The letters of `s`, in order. */
  function Letters(s: string): string
    decreases |s|
  {
    if s == [] then []
    else Letters(s[..|s| - 1]) + (if IsAlpha(s[|s| - 1]) then [s[|s| - 1]] else [])
  }

  predicate NoLetters(s: string)
  {
    forall i :: 0 <= i < |s| ==> !IsAlpha(s[i])
  }

  lemma {:induction false} LettersConcat(a: string, b: string)
    ensures Letters(a + b) == Letters(a) + Letters(b)
    decreases |b|
  {
    if b != [] {
      var init := b[..|b| - 1];
      assert (a + b)[..|a + b| - 1] == a + init;
      assert (a + b)[|a + b| - 1] == b[|b| - 1];
      LettersConcat(a, init);
      var tail := if IsAlpha(b[|b| - 1]) then [b[|b| - 1]] else [];
      assert Letters(a + b) == Letters(a) + Letters(init) + tail;
      assert Letters(b) == Letters(init) + tail;
    } else {
      assert a + b == a;
    }
  }

  lemma {:induction false} NoLettersEmpty(s: string)
    requires NoLetters(s)
    ensures Letters(s) == []
    decreases |s|
  {
    if s != [] {
      NoLettersEmpty(s[..|s| - 1]);
    }
  }

  /** Appending a non-letter leaves the letters as they were. */
  lemma AppendNonLetter(s: string, c: char)
    requires !IsAlpha(c)
    ensures Letters(s + [c]) == Letters(s)
  {
    assert (s + [c])[..|s|] == s;
  }

  /** The characters held in the machine, output and stack together. */
  function Held(m: Machine): multiset<char>
  {
    multiset(m.out) + multiset(m.stack)
  }

  /** The `)` branch keeps every held character except one `(`, and adds no letter. */
  lemma {:induction false} CloseGroupMoves(m: Machine)
    requires CloseGroup(m).Ok? && NoLetters(m.stack)
    ensures Held(CloseGroup(m).value) + multiset{'('} == Held(m)
    ensures Letters(CloseGroup(m).value.out) == Letters(m.out) && NoLetters(CloseGroup(m).value.stack)
    decreases |m.stack|
  {
    var init := m.stack[..|m.stack| - 1];
    assert m.stack == init + [Top(m)];
    if Top(m) != '(' {
      AppendNonLetter(m.out, Top(m));
      CloseGroupMoves(Moved(m));
    }
  }

  /** The operator branch holds `ch` in addition, and adds no letter. */
  lemma {:induction false} PushOperatorMoves(m: Machine, ch: char)
    requires PushOperator(m, ch).Ok? && NoLetters(m.stack) && !IsAlpha(ch)
    ensures Held(PushOperator(m, ch).value) == Held(m) + multiset{ch}
    ensures Letters(PushOperator(m, ch).value.out) == Letters(m.out) && NoLetters(PushOperator(m, ch).value.stack)
    decreases |m.stack|
  {
    if m.stack != [] && Precedence([ch], [Top(m)]) == Ok(true) {
      var init := m.stack[..|m.stack| - 1];
      assert m.stack == init + [Top(m)];
      AppendNonLetter(m.out, Top(m));
      PushOperatorMoves(Moved(m), ch);
    }
  }

  /**
   * The characters the machine should hold after reading `p`: everything
   * but the brackets as read, no `)`, and one `(` for each one not closed.
   */
  function Expected(p: string, c: char): int
  {
    if c == ')' then 0
    else if c == '(' then multiset(p)['('] as int - multiset(p)[')'] as int
    else multiset(p)[c]
  }

  /** How reading `ch` changes the number of `c` held. */
  function Delta(ch: char, c: char): int
  {
    if ch == ')' then (if c == '(' then -1 else 0)
    else if c == ch then 1 else 0
  }

  /**
   * One character read: its letter, if any, joins the output, the stack
   * gains no letter, and the held characters change by `Delta`.
   */
  lemma StepHolds(m: Machine, ch: char, c: char)
    requires Step(m, ch).Ok? && NoLetters(m.stack)
    ensures Letters(Step(m, ch).value.out) == Letters(m.out + [ch]) && NoLetters(Step(m, ch).value.stack)
    ensures Held(Step(m, ch).value)[c] == Held(m)[c] + Delta(ch, c)
  {
    var r := Step(m, ch).value;
    if IsAlpha(ch) {
      assert r == Machine(m.out + [ch], m.stack);
      assert multiset(r.out) == multiset(m.out) + multiset{ch};
    } else if ch == '(' {
      assert r == Machine(m.out, m.stack + [ch]);
      AppendNonLetter(m.out, ch);
      assert NoLetters(r.stack);
      assert multiset(r.stack) == multiset(m.stack) + multiset{ch};
    } else if ch == ')' {
      AppendNonLetter(m.out, ch);
      CloseGroupMoves(m);
    } else {
      AppendNonLetter(m.out, ch);
      PushOperatorMoves(m, ch);
    }
  }

  lemma ExpectedStep(p: string, ch: char, c: char)
    ensures Expected(p + [ch], c) == Expected(p, c) + Delta(ch, c)
  {
  }

  /**
   * After each successful prefix the output holds the prefix's letters in
   * order, the stack holds no letter, and the held characters are the
   * expected ones.
   */
  lemma {:induction false} ScanHolds(e: string, n: nat, c: char)
    requires n <= |e| && Scan(e, n).Ok?
    ensures Letters(Scan(e, n).value.out) == Letters(e[..n]) && NoLetters(Scan(e, n).value.stack)
    ensures Held(Scan(e, n).value)[c] == Expected(e[..n], c)
    decreases n
  {
    if n > 0 {
      var m := Scan(e, n - 1).value;
      var ch := e[n - 1];
      ScanHolds(e, n - 1, c);
      assert Scan(e, n) == Step(m, ch);
      var r := Step(m, ch).value;
      assert e[..n] == e[..n - 1] + [ch];
      LettersConcat(e[..n - 1], [ch]);
      LettersConcat(m.out, [ch]);
      StepHolds(m, ch, c);
      assert Letters(r.out) == Letters(e[..n]);
      ExpectedStep(e[..n - 1], ch, c);
      assert Held(r)[c] == Expected(e[..n], c);
    } else {
      assert e[..n] == [];
    }
  }

  /**
   * A successful conversion keeps the operands in their order and every
   * other character except the brackets as often as it occurs; no `)`
   * reaches the output, and every `(` left unclosed does.
   */
  lemma ConvertKeeps(e: string, c: char)
    requires Convert(e).Ok?
    ensures Letters(Convert(e).value) == Letters(e)
    ensures c != '(' && c != ')' ==> multiset(Convert(e).value)[c] == multiset(e)[c]
    ensures multiset(Convert(e).value)[')'] == 0
    ensures multiset(Convert(e).value)['('] + multiset(e)[')'] == multiset(e)['(']
  {
    var m := Scan(e, |e|).value;
    assert e[..|e|] == e;
    ScanHolds(e, |e|, c);
    ScanHolds(e, |e|, '(');
    ScanHolds(e, |e|, ')');
    FlushReverses(m);
    ReversedKeeps(m.stack);
    LettersConcat(m.out, Reversed(m.stack));
    assert NoLetters(Reversed(m.stack)) by {
      forall i | 0 <= i < |m.stack| ensures Reversed(m.stack)[i] in multiset(m.stack) {
        assert Reversed(m.stack)[i] in multiset(Reversed(m.stack));
      }
    }
    NoLettersEmpty(Reversed(m.stack));
  }

  /** Every error is an empty-stack pop or an unknown operator. */
  lemma {:induction false} ScanErrors(e: string, n: nat)
    requires n <= |e| && Scan(e, n).Err?
    ensures Scan(e, n).error == EmptyStack || Scan(e, n).error == InvalidOperator
    decreases n
  {
    if Scan(e, n - 1).Err? {
      ScanErrors(e, n - 1);
    } else {
      var m := Scan(e, n - 1).value;
      CloseGroupSpec(m);
      PushOperatorErrors(m, e[n - 1]);
    }
  }

  lemma {:induction false} PushOperatorErrors(m: Machine, ch: char)
    ensures PushOperator(m, ch).Err? ==> PushOperator(m, ch).error == InvalidOperator
    decreases |m.stack|
  {
    if m.stack != [] {
      PushOperatorErrors(Moved(m), ch);
    }
  }

  /**
   * The `Invalid infix expression` check after the `)` loop can never
   * fire: an unmatched `)` fails with the stack's own error instead.
   */
  lemma NeverInvalidInfix(e: string)
    ensures Convert(e) != Err(InvalidInfix)
    ensures Convert(e).Err? ==> Convert(e).error == EmptyStack || Convert(e).error == InvalidOperator
  {
    if Scan(e, |e|).Err? {
      ScanErrors(e, |e|);
    }
  }

  /** `a+b*c` up to the `*`. */
  lemma ExampleProductStart(e: string)
    requires e == "a+b*c"
    ensures Scan(e, 3) == Ok(Machine("ab", "+"))
  {
    assert "" + ['a'] == "a" && "" + ['+'] == "+" && "a" + ['b'] == "ab";
    assert Scan(e, 1) == Ok(Machine("a", ""));
    assert Scan(e, 2) == Ok(Machine("a", "+"));
  }

  /** Multiplication outranks addition. */
  lemma ExampleProduct(e: string)
    requires e == "a+b*c"
    ensures Convert(e) == Ok("abc*+")
  {
    ExampleProductStart(e);
    assert "+" + ['*'] == "+*" && "ab" + ['c'] == "abc";
    assert Precedence("*", "+") == Ok(false);
    assert Scan(e, 4) == Ok(Machine("ab", "+*"));
    assert Scan(e, 5) == Ok(Machine("abc", "+*"));
    assert "abc" + ['*'] == "abc*" && "+*"[..1] == "+" && "abc*" + ['+'] == "abc*+" && "+"[..0] == "";
    assert Flush(Machine("abc", "+*")) == Flush(Machine("abc*", "+")) == "abc*+";
  }

  /** The bracketed group of `(a+b)*c` leaves `ab+` and an empty stack. */
  lemma ExampleGroup(e: string)
    requires e == "(a+b)*c"
    ensures Scan(e, 5) == Ok(Machine("ab+", ""))
  {
    assert "" + ['a'] == "a" && "a" + ['b'] == "ab";
    assert "" + ['('] == "(" && "(" + ['+'] == "(+" && "ab" + ['+'] == "ab+" && "(+"[..1] == "(";
    assert "(" [..0] == "";
    assert Scan(e, 1) == Ok(Machine("", "("));
    assert Scan(e, 2) == Ok(Machine("a", "("));
    assert Scan(e, 3) == Ok(Machine("a", "(+"));
    assert Scan(e, 4) == Ok(Machine("ab", "(+"));
    assert CloseGroup(Machine("ab", "(+")) == CloseGroup(Machine("ab+", "(")) == Ok(Machine("ab+", ""));
  }

  /** Brackets override precedence. */
  lemma ExampleBrackets(e: string)
    requires e == "(a+b)*c"
    ensures Convert(e) == Ok("ab+c*")
  {
    ExampleGroup(e);
    assert "" + ['*'] == "*" && "ab+" + ['c'] == "ab+c";
    assert Scan(e, 6) == Ok(Machine("ab+", "*"));
    assert Scan(e, 7) == Ok(Machine("ab+c", "*"));
    assert "ab+c" + ['*'] == "ab+c*" && "*"[..0] == "";
    assert Flush(Machine("ab+c", "*")) == "ab+c*";
  }

  /** `a^b^c` up to the second `^`. */
  lemma ExamplePowerStart(e: string)
    requires e == "a^b^c"
    ensures Scan(e, 3) == Ok(Machine("ab", "^"))
  {
    assert "" + ['a'] == "a" && "" + ['^'] == "^" && "a" + ['b'] == "ab";
    assert Scan(e, 1) == Ok(Machine("a", ""));
    assert Scan(e, 2) == Ok(Machine("a", "^"));
  }

  /** The second `^` of `a^b^c` pops the first. */
  lemma ExamplePowerPops(e: string)
    requires e == "a^b^c"
    ensures Scan(e, 4) == Ok(Machine("ab^", "^"))
  {
    ExamplePowerStart(e);
    assert "ab" + ['^'] == "ab^" && "^"[..0] == "" && "" + ['^'] == "^";
    assert Precedence("^", "^") == Ok(true);
    assert PushOperator(Machine("ab", "^"), '^') == PushOperator(Machine("ab^", ""), '^') == Ok(Machine("ab^", "^"));
  }

  /** Equal levels pop, so `^` groups to the left. */
  lemma ExamplePower(e: string)
    requires e == "a^b^c"
    ensures Convert(e) == Ok("ab^c^")
  {
    ExamplePowerPops(e);
    assert "ab^" + ['c'] == "ab^c" && "ab^c" + ['^'] == "ab^c^" && "^"[..0] == "";
    assert Scan(e, 5) == Ok(Machine("ab^c", "^"));
    assert Flush(Machine("ab^c", "^")) == "ab^c^";
  }

  /**
   * A character that is neither a letter nor a bracket is treated as an
   * operator, and refused once it is compared with another.
   */
  lemma ExampleUnknownOperator(e: string)
    requires e == "a+1"
    ensures Convert(e) == Err(InvalidOperator)
  {
    assert "" + ['a'] == "a" && "" + ['+'] == "+" && "" + ['1'] == "1" && "a" + ['1'] == "a1" && "1"[..0] == "";
    assert Scan(e, 1) == Ok(Machine("a", ""));
    assert Scan(e, 2) == Ok(Machine("a", "+"));
    assert Precedence("1", "+") == Err(KeyError(VStr("1")));
    assert Scan(e, 3) == Err(InvalidOperator);
  }

  /** With nothing to compare it against, a digit is pushed like an operator. */
  lemma ExampleDigitPushed(e: string)
    requires e == "1a"
    ensures Convert(e) == Ok("a1")
  {
    assert "" + ['a'] == "a" && "" + ['1'] == "1" && "a" + ['1'] == "a1" && "1"[..0] == "";
    assert Scan(e, 1) == Ok(Machine("", "1"));
    assert Scan(e, 2) == Ok(Machine("a", "1"));
    assert Flush(Machine("a", "1")) == "a1";
  }

  /** An unclosed `(` ends up in the output. */
  lemma ExampleUnclosed(e: string)
    requires e == "(a"
    ensures Convert(e) == Ok("a(")
  {
    assert "" + ['('] == "(" && "" + ['a'] == "a" && "a" + ['('] == "a(" && "("[..0] == "";
    assert Scan(e, 1) == Ok(Machine("", "("));
    assert Scan(e, 2) == Ok(Machine("a", "("));
    assert Flush(Machine("a", "(")) == "a(";
  }

  /** An unopened `)` pops the empty stack. */
  lemma ExampleUnopened(e: string)
    requires e == "a)"
    ensures Convert(e) == Err(EmptyStack)
  {
    assert "" + ['a'] == "a";
    assert Scan(e, 1) == Ok(Machine("a", ""));
    assert Scan(e, 2) == Err(EmptyStack);
  }

  // ----- The records `run` leaves -----

  /** The stack's items: each character as a one-character str. */
  function Cells(s: string): (r: seq<Val>)
    ensures |r| == |s| && forall i :: 0 <= i < |s| ==> r[i] == VStr([s[i]])
  {
    seq(|s|, i requires 0 <= i < |s| => VStr([s[i]]))
  }

  lemma CellsPush(s: string, c: char)
    ensures Cells(s + [c]) == Cells(s) + [VStr([c])]
  {
  }

  lemma CellsPop(s: string)
    requires s != []
    ensures Cells(s[..|s| - 1]) == Cells(s)[..|s| - 1]
    ensures Cells(s)[|s| - 1] == VStr([s[|s| - 1]])
  {
  }

  function TopRecord(m: Machine): State
  {
    StackTopState("stack", Cells(m.stack), "")
  }

  function PopRecord(stack: string, comments: string): State
  {
    StackPopState("stack", Cells(stack), comments)
  }

  function PushRecord(stack: string, ch: char, comments: string): State
  {
    StackPushState("stack", Cells(stack), VStr([ch]), comments)
  }

  function AppendRecord(out: string, c: char, comments: string): State
  {
    StringAppendState("output", out, [c], comments)
  }

  /** The records of `a = st.pop(comments)` followed by `output.append(a)`. */
  function MoveLog(m: Machine, comments: string): seq<State>
    requires m.stack != []
  {
    [PopRecord(Moved(m).stack, comments), AppendRecord(Moved(m).out, Top(m), "")]
  }

  /**
   * The records of the `)` branch: each loop test reads the top; a popped
   * operator is appended; at a `(` the top is read once more by the check
   * after the loop and the `(` is popped.
   */
  function CloseLog(m: Machine): seq<State>
    decreases |m.stack|
  {
    if m.stack == [] then []
    else if Top(m) == '(' then
      [TopRecord(m), TopRecord(m), PopRecord(m.stack[..|m.stack| - 1], "eject parenthesis from stack")]
    else [TopRecord(m)] + MoveLog(m, "pop operators till opening bracket is found") + CloseLog(Moved(m))
  }

  /** The records of the operator branch. */
  function PushLog(m: Machine, ch: char): seq<State>
    decreases |m.stack|
  {
    var push := PushRecord(m.stack + [ch], ch, "add operator to stack");
    if m.stack == [] then [push]
    else match Precedence([ch], [Top(m)])
      case Err(_) => [TopRecord(m)]
      case Ok(higher) =>
        if higher then [TopRecord(m)] + MoveLog(m, "pop operators with higher precedence") + PushLog(Moved(m), ch)
        else [TopRecord(m), push]
  }

  function StepLog(m: Machine, ch: char): seq<State>
  {
    if IsAlpha(ch) then [AppendRecord(m.out + [ch], ch, "character is operand so we directly add it to postfix")]
    else if ch == '(' then [PushRecord(m.stack + [ch], ch, "We push opening bracket into stack")]
    else if ch == ')' then CloseLog(m)
    else PushLog(m, ch)
  }

  /** The records of the first `n` turns of the main loop, each beginning with the read of `ch`. */
  function ScanLog(e: string, n: nat): seq<State>
    requires n <= |e|
    decreases n
  {
    if n == 0 then []
    else match Scan(e, n - 1)
      case Err(_) => ScanLog(e, n - 1)
      case Ok(m) => ScanLog(e, n - 1) + [StringIterState("expr", e, n - 1)] + StepLog(m, e[n - 1])
  }

  /** The records of the final loop. */
  function FlushLog(m: Machine): seq<State>
    decreases |m.stack|
  {
    if m.stack == [] then []
    else MoveLog(m, "Pop remaining operators to end of expression") + FlushLog(Moved(m))
  }

  function Declarations(e: string): seq<State>
  {
    [StringDeclareState("expr", e, "The infix expression"),
     StackDeclareState("stack", "We will use a stack to convert infix to postfix"),
     StringDeclareState("output", "", "We will store the postfix expression in this")]
  }

  /** Every record of a successful run, in order. */
  function Log(e: string): seq<State>
    requires Scan(e, |e|).Ok?
  {
    Declarations(e) + ScanLog(e, |e|) + FlushLog(Scan(e, |e|).value) +
    [CommentState("Infix has been converted to postfix")]
  }

  /** The last append of a run with a non-empty stack at the end shows the whole postfix expression. */
  lemma {:induction false} FlushLogEnds(m: Machine)
    requires m.stack != []
    ensures FlushLog(m)[|FlushLog(m)| - 1] == AppendRecord(Flush(m), m.stack[0], "")
    decreases |m.stack|
  {
    if |m.stack| > 1 {
      FlushLogEnds(Moved(m));
    }
  }

  // ----- The toolkit objects -----

  /** The stack and the output hold what the machine `m` holds. */
  predicate Holds(st: Stack, output: String, m: Machine)
    reads st, output
  {
    st.body == Cells(m.stack) && output.body == m.out
  }

  lemma Regroup<T>(s: seq<T>, a: seq<T>, b: seq<T>, rest: seq<T>)
    ensures s + a + b + rest == s + (a + b + rest)
  {
  }

  /** `st.top()` on a stack that is not empty. */
  method ReadTop(st: Stack, ghost m: Machine) returns (top: Val)
    requires st.name == "stack" && st.body == Cells(m.stack) && m.stack != []
    modifies st.algo`states
    ensures top == VStr([Top(m)])
    ensures st.algo.states == old(st.algo.states) + [TopRecord(m)]
  {
    CellsPop(m.stack);
    var r := st.Top("");
    top := r.value;
  }

  /** `a = st.pop(comments)` then `output.append(a)`: the top moves to the output. */
  method MoveTop(st: Stack, output: String, ghost m: Machine, comments: string)
    requires st.algo == output.algo && st.name == "stack" && output.name == "output"
    requires Holds(st, output, m) && m.stack != []
    modifies st`body, output`body, st.algo`states
    ensures Holds(st, output, Moved(m))
    ensures st.algo.states == old(st.algo.states) + MoveLog(m, comments)
  {
    CellsPop(m.stack);
    var a := st.Pop(comments);
    var appended := output.Append(a.value, "");
  }

  /** `st.push(ch, comments)`. */
  method PushChar(st: Stack, ch: char, ghost m: Machine, comments: string)
    requires st.name == "stack" && st.body == Cells(m.stack)
    modifies st`body, st.algo`states
    ensures st.body == Cells(m.stack + [ch])
    ensures st.algo.states == old(st.algo.states) + [PushRecord(m.stack + [ch], ch, comments)]
  {
    CellsPush(m.stack, ch);
    st.Push(VStr([ch]), comments);
  }

  /**
   * One test of the `)` loop and what follows it: at the bottom of the
   * stack or at a `(` the branch finishes, otherwise an operator moves to
   * the output.
   */
  method CloseTurn(st: Stack, output: String, ghost m: Machine) returns (finished: bool, r: Outcome)
    requires st.algo == output.algo && st.name == "stack" && output.name == "output"
    requires Holds(st, output, m)
    modifies st`body, output`body, st.algo`states
    ensures finished && CloseGroup(m).Err? ==> r == Raised(CloseGroup(m).error)
    ensures finished && CloseGroup(m).Ok? ==>
              r == Done && Holds(st, output, CloseGroup(m).value) &&
              st.algo.states == old(st.algo.states) + CloseLog(m)
    ensures !finished ==>
              m.stack != [] && Top(m) != '(' && Holds(st, output, Moved(m)) &&
              st.algo.states == old(st.algo.states) + [TopRecord(m)] +
                                MoveLog(m, "pop operators till opening bracket is found")
  {
    if st.Empty() {
      // the check after the loop finds the stack empty and pops it
      var p := st.Pop("eject parenthesis from stack");
      return true, Raised(p.error);
    }
    var top := ReadTop(st, m);
    if top == VStr("(") {
      var again := ReadTop(st, m);
      // so `Invalid infix expression` is not raised
      assert again == VStr("(");
      CellsPop(m.stack);
      var p := st.Pop("eject parenthesis from stack");
      return true, Done;
    }
    MoveTop(st, output, m, "pop operators till opening bracket is found");
    return false, Done;
  }

  /** The `)` branch on the toolkit objects. */
  method CloseBranch(st: Stack, output: String, ghost m: Machine) returns (r: Outcome)
    requires st.algo == output.algo && st.name == "stack" && output.name == "output"
    requires Holds(st, output, m)
    modifies st`body, output`body, st.algo`states
    ensures CloseGroup(m).Err? ==> r == Raised(CloseGroup(m).error)
    ensures CloseGroup(m).Ok? ==>
              r == Done && Holds(st, output, CloseGroup(m).value) &&
              st.algo.states == old(st.algo.states) + CloseLog(m)
  {
    ghost var mc := m;
    while true
      invariant Holds(st, output, mc) && CloseGroup(mc) == CloseGroup(m)
      invariant st.algo.states + CloseLog(mc) == old(st.algo.states) + CloseLog(m)
      decreases |mc.stack|
    {
      ghost var before := st.algo.states;
      var finished;
      finished, r := CloseTurn(st, output, mc);
      if finished {
        return;
      }
      Regroup(before, [TopRecord(mc)], MoveLog(mc, "pop operators till opening bracket is found"), CloseLog(Moved(mc)));
      mc := Moved(mc);
    }
  }

  /**
   * One test of the operator loop and what follows it: at the bottom of
   * the stack or below an operator `ch` outranks, `ch` is pushed; an
   * unknown operator raises; otherwise an operator moves to the output.
   */
  method OperatorTurn(st: Stack, output: String, ch: char, ghost m: Machine) returns (finished: bool, r: Outcome)
    requires st.algo == output.algo && st.name == "stack" && output.name == "output"
    requires Holds(st, output, m)
    modifies st`body, output`body, st.algo`states
    ensures finished && PushOperator(m, ch).Err? ==> r == Raised(InvalidOperator)
    ensures finished && PushOperator(m, ch).Ok? ==>
              r == Done && Holds(st, output, PushOperator(m, ch).value) &&
              st.algo.states == old(st.algo.states) + PushLog(m, ch)
    ensures !finished ==>
              m.stack != [] && Precedence([ch], [Top(m)]) == Ok(true) && Holds(st, output, Moved(m)) &&
              st.algo.states == old(st.algo.states) + [TopRecord(m)] +
                                MoveLog(m, "pop operators with higher precedence")
  {
    // the push after the loop is written at each of the loop's two exits
    if st.Empty() {
      PushChar(st, ch, m, "add operator to stack");
      return true, Done;
    }
    var top := ReadTop(st, m);
    var higher := Precedence([ch], top.s);
    if higher.Err? {
      return true, Raised(InvalidOperator);
    }
    if !higher.value {
      PushChar(st, ch, m, "add operator to stack");
      return true, Done;
    }
    MoveTop(st, output, m, "pop operators with higher precedence");
    return false, Done;
  }

  /** The operator branch on the toolkit objects. */
  method OperatorBranch(st: Stack, output: String, ch: char, ghost m: Machine) returns (r: Outcome)
    requires st.algo == output.algo && st.name == "stack" && output.name == "output"
    requires Holds(st, output, m)
    modifies st`body, output`body, st.algo`states
    ensures PushOperator(m, ch).Err? ==> r == Raised(InvalidOperator)
    ensures PushOperator(m, ch).Ok? ==>
              r == Done && Holds(st, output, PushOperator(m, ch).value) &&
              st.algo.states == old(st.algo.states) + PushLog(m, ch)
  {
    ghost var mc := m;
    while true
      invariant Holds(st, output, mc) && PushOperator(mc, ch) == PushOperator(m, ch)
      invariant st.algo.states + PushLog(mc, ch) == old(st.algo.states) + PushLog(m, ch)
      decreases |mc.stack|
    {
      ghost var before := st.algo.states;
      var finished;
      finished, r := OperatorTurn(st, output, ch, mc);
      if finished {
        return;
      }
      Regroup(before, [TopRecord(mc)], MoveLog(mc, "pop operators with higher precedence"), PushLog(Moved(mc), ch));
      mc := Moved(mc);
    }
  }

  /** One turn of the main loop, after `ch` has been read. */
  method Consume(st: Stack, output: String, ch: char, ghost m: Machine) returns (r: Outcome)
    requires st.algo == output.algo && st.name == "stack" && output.name == "output"
    requires Holds(st, output, m)
    modifies st`body, output`body, st.algo`states
    ensures Step(m, ch).Err? ==> r == Raised(Step(m, ch).error)
    ensures Step(m, ch).Ok? ==>
              r == Done && Holds(st, output, Step(m, ch).value) &&
              st.algo.states == old(st.algo.states) + StepLog(m, ch)
  {
    PushOperatorErrors(m, ch);
    if IsAlpha(ch) {
      r := output.Append(VStr([ch]), "character is operand so we directly add it to postfix");
    } else if ch == '(' {
      PushChar(st, ch, m, "We push opening bracket into stack");
      r := Done;
    } else if ch == ')' {
      r := CloseBranch(st, output, m);
    } else {
      r := OperatorBranch(st, output, ch, m);
    }
  }

  /** The final loop on the toolkit objects. */
  method FlushStack(st: Stack, output: String, ghost m: Machine)
    requires st.algo == output.algo && st.name == "stack" && output.name == "output"
    requires Holds(st, output, m)
    modifies st`body, output`body, st.algo`states
    ensures st.body == [] && output.body == Flush(m)
    ensures st.algo.states == old(st.algo.states) + FlushLog(m)
  {
    ghost var mc := m;
    while !st.Empty()
      invariant Holds(st, output, mc) && Flush(mc) == Flush(m)
      invariant st.algo.states + FlushLog(mc) == old(st.algo.states) + FlushLog(m)
      decreases |mc.stack|
    {
      MoveTop(st, output, mc, "Pop remaining operators to end of expression");
      FlushStep(mc);
      mc := Moved(mc);
    }
    assert mc.stack == [];
  }

  lemma FlushStep(m: Machine)
    requires m.stack != []
    ensures Flush(m) == Flush(Moved(m))
    ensures forall s :: s + FlushLog(m) == s + MoveLog(m, "Pop remaining operators to end of expression") + FlushLog(Moved(m))
  {
  }

  lemma ScanLogStep(e: string, n: nat, m: Machine)
    requires n < |e| && Scan(e, n) == Ok(m)
    ensures Scan(e, n + 1) == Step(m, e[n])
    ensures ScanLog(e, n + 1) == ScanLog(e, n) + [StringIterState("expr", e, n)] + StepLog(m, e[n])
  {
  }

  /**
   * One turn of `for ch in exp`: the iterator stops at the end of the
   * expression, or the next character is read and handled. `base` is what
   * was recorded before the loop.
   */
  method Turn(it: StringIterator, st: Stack, output: String, ghost e: string, ghost m: Machine,
              ghost base: seq<State>)
    returns (stop: bool, r: Outcome)
    requires it.str.name == "expr" && it.str.body == e && it.size == |e| && it.index <= it.size
    requires it.str != output && it.str.algo == st.algo && st.algo == output.algo
    requires st.name == "stack" && output.name == "output"
    requires Scan(e, it.index) == Ok(m) && Holds(st, output, m)
    requires st.algo.states == base + ScanLog(e, it.index)
    modifies it`index, st`body, output`body, st.algo`states
    ensures it.str.body == e
    ensures stop <==> old(it.index) == |e|
    ensures stop ==> r == Done && it.index == old(it.index) && Holds(st, output, m) &&
                     st.algo.states == old(st.algo.states)
    ensures !stop ==> it.index == old(it.index) + 1 &&
                      (Scan(e, it.index).Err? ==> r == Raised(Scan(e, it.index).error)) &&
                      (Scan(e, it.index).Ok? ==>
                         r == Done && Holds(st, output, Scan(e, it.index).value) &&
                         st.algo.states == base + ScanLog(e, it.index))
  {
    var next := it.Next();
    if next == Ok(None) {
      return true, Done;
    }
    var n := it.index - 1;
    ScanLogStep(e, n, m);
    r := Consume(st, output, next.value.value, m);
    Regroup(base, ScanLog(e, n), [StringIterState("expr", e, n)], StepLog(m, e[n]));
    stop := false;
  }

  /** The `for ch in exp` loop, up to its end or to the first error. */
  method ReadExpression(exp: String, st: Stack, output: String) returns (r: Outcome, ghost m: Machine)
    requires exp.name == "expr" && exp != output && exp.algo == st.algo && st.algo == output.algo
    requires st.name == "stack" && output.name == "output"
    requires Holds(st, output, Machine([], []))
    modifies st`body, output`body, st.algo`states
    ensures exp.body == old(exp.body)
    ensures Scan(exp.body, |exp.body|).Err? ==> r == Raised(Scan(exp.body, |exp.body|).error)
    ensures Scan(exp.body, |exp.body|).Ok? ==>
              r == Done && m == Scan(exp.body, |exp.body|).value && Holds(st, output, m) &&
              st.algo.states == old(st.algo.states) + ScanLog(exp.body, |exp.body|)
  {
    ghost var e := exp.body;
    var it := new StringIterator(exp);
    m := Machine([], []);
    while true
      invariant it.str == exp && it.size == |e| && it.index <= it.size && exp.body == e
      invariant Scan(e, it.index) == Ok(m) && Holds(st, output, m)
      invariant st.algo.states == old(st.algo.states) + ScanLog(e, it.index)
      decreases it.size - it.index
    {
      var stop, outcome := Turn(it, st, output, e, m, old(st.algo.states));
      if stop {
        return Done, m;
      }
      if outcome.Raised? {
        ScanErrorSticks(e, it.index, |e|);
        return outcome, m;
      }
      m := Scan(e, it.index).value;
    }
  }

  /**
   * `run(expression=...)`: on success the StateSet holds exactly the
   * records of the conversion, ending with the postfix expression appended
   * to `output`; otherwise the error the conversion raises.
   */
  method Run(expression: string) returns (r: Result<StateSet>)
    ensures Convert(expression).Err? ==> r == Err(Convert(expression).error)
    ensures Convert(expression).Ok? ==> r.Ok? && r.value.states == Log(expression)
  {
    var algo := new StateSet();
    var exp := new String("expr", algo, expression, "The infix expression");
    var st := new Stack("stack", algo, "We will use a stack to convert infix to postfix");
    var output := new String("output", algo, "", "We will store the postfix expression in this");
    assert algo.states == Declarations(expression);
    var outcome, m := ReadExpression(exp, st, output);
    if outcome.Raised? {
      return Err(outcome.error);
    }
    FlushStack(st, output, m);
    algo.AddComment("Infix has been converted to postfix");
    return Ok(algo);
  }
}

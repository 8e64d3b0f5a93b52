/**
 * Running a digit string through the table, and the language the table
 * accepts: exactly the 16-digit Mastercard numbers of the 51-55 range that
 * pass Luhn's check.
 */
module Acceptance {
  import opened Wrappers
  import opened Digits
  import opened Naming
  import opened Luhn
  import opened Transitions

  /**
   * The state reached from `st` by reading `s` symbol by symbol, or `None`
   * when a symbol has no transition on the way.
   */
  function Run(t: Table, st: State, s: string): Option<State>
    decreases |s|
  {
    if s == [] then Some(st)
    else if st in t && s[0] in t[st] then Run(t, t[st][s[0]], s[1..])
    else None
  }

  /** The string leads from the start state to the accepting state. */
  predicate Accepts(t: Table, s: string) {
    Run(t, Start, s) == Some(Accept)
  }

  /** The prefix rule for the first `|s|` symbols: digits, leading 5, second digit 1..5. */
  predicate PrefixOk(s: string) {
    (forall i :: 0 <= i < |s| ==> IsDigit(s[i])) &&
    (1 <= |s| ==> s[0] == '5') &&
    (2 <= |s| ==> '1' <= s[1] <= '5')
  }

  /** A 16-digit Mastercard number of the 51-55 range whose Luhn sum is a multiple of ten. */
  predicate IsMastercard(s: string) {
    |s| == 16 && PrefixOk(s) && LuhnValid(s)
  }

  /** Reading `a + b` is reading `a`, then `b` from wherever `a` led. */
  lemma {:induction false} RunAppend(t: Table, st: State, a: string, b: string)
    ensures Run(t, st, a + b) == if Run(t, st, a).Some? then Run(t, Run(t, st, a).value, b) else None
    decreases |a|
  {
    if a != [] {
      assert (a + b)[0] == a[0] && (a + b)[1..] == a[1..] + b;
      if st in t && a[0] in t[st] {
        RunAppend(t, t[st][a[0]], a[1..], b);
      }
    } else {
      assert a + b == b;
    }
  }

  /** A symbol with a transition moves the run one step along. */
  lemma RunCons(t: Table, st: State, c: char, w: string)
    requires st in t && c in t[st]
    ensures Run(t, st, [c] + w) == Run(t, t[st][c], w)
  {
    assert ([c] + w)[0] == c && ([c] + w)[1..] == w;
  }

  /** One more symbol is one more table lookup. */
  lemma RunSnoc(t: Table, st: State, s: string, c: char)
    ensures Run(t, st, s + [c]) ==
      match Run(t, st, s)
      case None => None
      case Some(m) => if m in t && c in t[m] then Some(t[m][c]) else None
  {
    RunAppend(t, st, s, [c]);
  }

  /** (a % 10 + b) % 10 == (a + b) % 10 */
  lemma ModAdd(a: int, b: int)
    ensures (a % 10 + b) % 10 == (a + b) % 10
  {
  }

  /** The prefix rule for one more symbol. */
  lemma PrefixOkSnoc(s: string, c: char)
    requires 1 <= |s|
    ensures PrefixOk(s + [c]) <==> PrefixOk(s) && IsDigit(c) && (|s| == 1 ==> '1' <= c <= '5')
  {
    var u := s + [c];
    assert u[0] == s[0] && u[|s|] == c;
    assert |s| >= 2 ==> u[1] == s[1];
    assert forall i :: 0 <= i < |s| ==> u[i] == s[i];
  }

  /** A step inside layers 1..14, with the residue written as a running sum modulo 10. */
  lemma StepWithSum(t: Table, k: nat, sum: int, c: char)
    requires Realizes(t)
    requires 1 <= k <= 14
    ensures Work(k, sum % 10) in t
    ensures c in t[Work(k, sum % 10)] <==> IsDigit(c) && (k == 1 ==> '1' <= c <= '5')
    ensures c in t[Work(k, sum % 10)] ==> t[Work(k, sum % 10)][c] == Work(k + 1, (sum + Modi(k, Val(c))) % 10)
  {
    var st := Work(k, sum % 10);
    PrefixRows(t, k, sum % 10, c);
    if c in t[st] {
      StepAdvances(t, st, c);
      ModAdd(sum, Modi(k, Val(c)));
    }
  }

  /**
   * The layer invariant: after k digits (1 <= k <= 15) the run is in layer k
   * with the residue of their Luhn sum, provided the prefix rule holds, and it
   * has stopped otherwise.
   */
  lemma {:induction false} LayerInvariant(t: Table, s: string)
    requires Realizes(t)
    requires 1 <= |s| <= 15
    ensures Run(t, Start, s) == if PrefixOk(s) then Some(Work(|s|, LuhnSum(s) % 10)) else None
    decreases |s|
  {
    var k := |s| - 1;
    var init, c := s[..k], s[k];
    assert s == init + [c];
    RunSnoc(t, Start, init, c);
    if k == 0 {
      assert init == [];
      StartRow(t, c);
    } else {
      LayerInvariant(t, init);
      PrefixOkSnoc(init, c);
      StepWithSum(t, k, LuhnSum(init), c);
      LuhnSumSnoc(s, k);
    }
  }

  /** A 16-symbol string reaches the accepting state exactly when it is a valid Mastercard number. */
  lemma FullLength(t: Table, s: string)
    requires Realizes(t)
    requires |s| == 16
    ensures Run(t, Start, s) == if IsMastercard(s) then Some(Accept) else None
  {
    var init, c := s[..15], s[15];
    assert s == init + [c];
    RunSnoc(t, Start, init, c);
    LayerInvariant(t, init);
    assert PrefixOk(s) <==> PrefixOk(init) && IsDigit(c);
    if PrefixOk(init) {
      var r := LuhnSum(init) % 10;
      LastRow(t, r, c);
      ModAdd(LuhnSum(init), Val(c));
      if IsDigit(c) {
        DigitOfVal(c);
      }
    }
  }

  /**
   * The language of the table: a string is accepted if and only if it has 16
   * digits, starts with 5, has a second digit in 1..5 and a Luhn sum that is a
   * multiple of ten.
   */
  lemma Language(t: Table, s: string)
    requires Realizes(t)
    ensures Accepts(t, s) <==> IsMastercard(s)
  {
    if |s| == 0 {
    } else if |s| <= 15 {
      LayerInvariant(t, s);
    } else if |s| == 16 {
      FullLength(t, s);
    } else {
      var head, tail := s[..16], s[16..];
      assert s == head + tail;
      RunAppend(t, Start, head, tail);
      FullLength(t, head);
      TableShape(t, Accept, tail[0]);
    }
  }

  /** A shortest continuation from a layer-1..15 state to the accepting state. */
  function Completion(pos: nat, r: nat): string
    requires 1 <= pos <= 15 && r <= 9
    decreases 15 - pos
  {
    if pos == 15 then [Digit((10 - r) % 10)]
    else if pos == 1 then ['1'] + Completion(2, (r + 1) % 10)
    else ['0'] + Completion(pos + 1, r)
  }

  /** The first symbol of a completion below layer 15 and the state it leads to. */
  lemma CompletionStep(t: Table, pos: nat, r: nat)
    requires Realizes(t)
    requires 1 <= pos <= 14 && r <= 9
    ensures var c, r' := if pos == 1 then '1' else '0', if pos == 1 then (r + 1) % 10 else r;
      c in t[Work(pos, r)] && t[Work(pos, r)][c] == Work(pos + 1, r') &&
      Completion(pos, r) == [c] + Completion(pos + 1, r')
  {
    var c := if pos == 1 then '1' else '0';
    PrefixRows(t, pos, r, c);
    StepAdvances(t, Work(pos, r), c);
    assert Modi(pos, Val(c)) == if pos == 1 then 1 else 0;
  }

  /** From a layer-1..15 state its completion leads to the accepting state, one layer per symbol. */
  lemma {:induction false} CompletionAccepted(t: Table, pos: nat, r: nat)
    requires Realizes(t)
    requires 1 <= pos <= 15 && r <= 9
    ensures |Completion(pos, r)| == 16 - pos
    ensures Run(t, Work(pos, r), Completion(pos, r)) == Some(Accept)
    decreases 15 - pos
  {
    if pos == 15 {
      var c := Digit((10 - r) % 10);
      LastRow(t, r, c);
      RunCons(t, Work(pos, r), c, []);
      assert Completion(pos, r) == [c] + [];
    } else {
      var c, r' := if pos == 1 then '1' else '0', if pos == 1 then (r + 1) % 10 else r;
      CompletionStep(t, pos, r);
      CompletionAccepted(t, pos + 1, r');
      RunCons(t, Work(pos, r), c, Completion(pos + 1, r'));
    }
  }

  /**
   * No row of the table is a dead end: from every state with a row, some
   * string leads to the accepting state in exactly the number of layers left.
   */
  lemma NoDeadStates(t: Table, st: State)
    requires Realizes(t)
    requires st in t
    ensures exists w :: |w| == 16 - Layer(st) && Run(t, st, w) == Some(Accept)
  {
    if st == Start {
      StartRow(t, '5');
      var next := t[Start]['5'];
      CompletionAccepted(t, next.pos, next.res);
      var w := Completion(next.pos, next.res);
      RunCons(t, Start, '5', w);
      assert |['5'] + w| == 16 && Run(t, st, ['5'] + w) == Some(Accept);
    } else {
      assert IsWorkState(st);
      CompletionAccepted(t, st.pos, st.res);
    }
  }

  /** Two generated card numbers of the suite (main.py:72, main.py:74) are valid. */
  lemma GeneratedCardsValid()
    ensures IsMastercard("5222084305213022")
    ensures IsMastercard("5306937024627310")
  {
    LuhnSum16("5222084305213022");
    LuhnSum16("5306937024627310");
  }

  /** The generated card number of main.py:76, the one the rejected cases vary, is valid. */
  lemma BaseCardValid()
    ensures IsMastercard("5216055885117468")
  {
    LuhnSum16("5216055885117468");
  }

  /**
   * Rejected cases of the suite: a leading 6 (main.py:80), the last digit of
   * the card of main.py:76 changed (main.py:95), and a Visa number
   * (main.py:96), which passes Luhn's check and fails only the prefix rule.
   */
  lemma RejectedCardsInvalid()
    ensures !IsMastercard("6216055885117468")
    ensures !IsMastercard("5216055885117469")
    ensures !IsMastercard("4356180747362517") && LuhnValid("4356180747362517")
  {
    BaseCardValid();
    SingleErrorDetected("5216055885117469", "5216055885117468", 15);
    LuhnSum16("4356180747362517");
  }

  /** The verdicts main.py:123-129 expects for these cases, obtained from the table. */
  lemma Examples(t: Table)
    requires Realizes(t)
    ensures Accepts(t, "5222084305213022")
    ensures Accepts(t, "5306937024627310")
    ensures Accepts(t, "5216055885117468")
    ensures !Accepts(t, "6216055885117468")
    ensures !Accepts(t, "5216055885117469")
    ensures !Accepts(t, "4356180747362517")
  {
    GeneratedCardsValid();
    BaseCardValid();
    RejectedCardsInvalid();
    Language(t, "5222084305213022");
    Language(t, "5306937024627310");
    Language(t, "5216055885117468");
    Language(t, "6216055885117468");
    Language(t, "5216055885117469");
    Language(t, "4356180747362517");
  }
}

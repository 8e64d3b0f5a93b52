/**
 * The transition table `t` of main.py:36-58 and the loops that build it.
 *
 * `t` maps a state to its row, and a row maps a digit symbol to the next
 * state; a symbol missing from a row is a rejected symbol.
 */
module Transitions {
  import opened Wrappers
  import opened Digits
  import opened Naming
  import opened Luhn

  type Table = map<State, map<char, State>>

  /**
   * The rule by which the builder's loops fill a row entry: the successor of
   * `st` on symbol `c`, or `None` when the loops give `st` no entry for `c`.
   * Layers 0..14 advance by one layer, adding the weight of the digit to the
   * residue; the first digit must be 5 and the second one of 1..5 (the
   * Mastercard 51-55 range); layer 15 goes to the accepting state exactly when
   * the total weight is a multiple of ten.
   */
  function Delta(st: State, c: char): (next: Option<State>)
    ensures next.Some? ==> IsDigit(c) && Layer(next.value) == Layer(st) + 1
  {
    if !IsDigit(c) then None
    else
      var d := Val(c);
      match st
      case Start => if d == 5 then Some(P(1, (0 + Modi(0, d)) % 10)) else None
      case Accept => None
      case Work(pos, r) =>
        if pos == 0 || 15 < pos || 9 < r then None
        else if pos == 15 then (if (r + Modi(15, d)) % 10 == 0 then Some(Accept) else None)
        else if pos == 1 && (d == 0 || d > 5) then None
        else Some(P(pos + 1, (r + Modi(pos, d)) % 10))
  }

  /** The states the builder creates a row for: the start and every layer-1..15 state. */
  predicate IsKey(st: State) {
    st == Start || IsWorkState(st)
  }

  /** `row` holds exactly the entries `Delta` gives `st` for the digits below `n2`. */
  ghost predicate RowUpTo(row: map<char, State>, st: State, n2: nat) {
    forall c ::
      (c in row <==> IsDigit(c) && Val(c) < n2 && Delta(st, c).Some?) &&
      (c in row ==> row[c] == Delta(st, c).value)
  }

  /** `t` is the table of main.py: a row for every key and each row as `Delta` prescribes. */
  ghost predicate Realizes(t: Table) {
    (forall st :: st in t <==> IsKey(st)) &&
    (forall st, c :: st in t ==> (c in t[st] <==> Delta(st, c).Some?)) &&
    (forall st, c :: st in t && c in t[st] ==> t[st][c] == Delta(st, c).value)
  }

  /** The keys created before iteration (`pos`, `n1`) of the builder's loops. */
  ghost predicate Filled(st: State, pos: nat, n1: nat) {
    match st
    case Start => 0 < pos || 0 < n1
    case Accept => false
    case Work(q, r) => 1 <= q && r <= 9 && (q < pos || (q == pos && r < n1))
  }

  /** Entering digit `n2` as `Delta` prescribes extends a row filled below `n2` to one filled below `n2 + 1`. */
  lemma RowExtend(row: map<char, State>, st: State, n2: nat)
    requires n2 <= 9 && RowUpTo(row, st, n2)
    ensures var e := Delta(st, Digit(n2));
      RowUpTo(if e.Some? then row[Digit(n2) := e.value] else row, st, n2 + 1)
  {
  }

  /** The entry the first loop nest makes, or skips, for digit `n2` in the row of `p(pos, n1)`. */
  lemma LayerEntry(pos: nat, n1: nat, n2: nat)
    requires pos <= 14 && n1 <= 9 && n2 <= 9 && (pos == 0 ==> n1 == 0)
    ensures Delta(P(pos, n1), Digit(n2)) ==
      if (pos == 0 && n2 != 5) || (pos == 1 && (n2 == 0 || n2 > 5)) then None
      else Some(P(pos + 1, (n1 + Modi(pos, n2)) % 10))
  {
  }

  /** The entry the second loop nest makes, or skips, for digit `n2` in the row of `p(15, n1)`. */
  lemma FinalEntry(n1: nat, n2: nat)
    requires n1 <= 9 && n2 <= 9
    ensures Delta(P(15, n1), Digit(n2)) == if (n1 + Modi(15, n2)) % 10 == 0 then Some(Accept) else None
  {
  }

  /** `t` holds complete rows for exactly the keys created before iteration (`pos`, `n1`). */
  ghost predicate BuiltUpTo(t: Table, pos: nat, n1: nat) {
    (forall st :: st in t <==> Filled(st, pos, n1)) &&
    (forall st | st in t :: RowUpTo(t[st], st, 10))
  }

  /**
   * The first loop nest of main.py:36-51: a row for the start state and for
   * each (layer, residue) pair of layers 1..14, filled digit by digit and
   * skipping the digits outside the Mastercard prefix.
   */
  method BuildLayerRows() returns (t: Table)
    ensures BuiltUpTo(t, 15, 0)
  {
    t := map[];
    for pos := 0 to 15
      invariant BuiltUpTo(t, pos, 0)
    {
      for n1 := 0 to 10
        invariant BuiltUpTo(t, pos, n1)
      {
        // layer 0 is the start state alone: its residue is always 0
        if pos == 0 && n1 > 0 {
          continue;
        }
        var src := P(pos, n1);
        t := t[src := map[]];
        for n2 := 0 to 10
          invariant forall st :: st in t <==> Filled(st, pos, n1 + 1)
          invariant forall st | st in t && st != src :: RowUpTo(t[st], st, 10)
          invariant src in t && RowUpTo(t[src], src, n2)
        {
          LayerEntry(pos, n1, n2);
          RowExtend(t[src], src, n2);
          // the Mastercard prefix: first digit 5, second digit 1..5
          if pos == 0 && n2 != 5 {
            continue;
          }
          if pos == 1 && (n2 == 0 || n2 > 5) {
            continue;
          }
          t := t[src := t[src][Digit(n2) := P(pos + 1, (n1 + Modi(pos, n2)) % 10)]];
        }
      }
    }
  }

  /**
   * The second loop nest of main.py:53-58: a row for each layer-15 state,
   * holding only the digits that make the weighted sum a multiple of ten.
   */
  method AddFinalRows(t0: Table) returns (t: Table)
    requires BuiltUpTo(t0, 15, 0)
    ensures Realizes(t)
  {
    t := t0;
    for n1 := 0 to 10
      invariant BuiltUpTo(t, 15, n1)
    {
      var src := P(15, n1);
      t := t[src := map[]];
      for n2 := 0 to 10
        invariant forall st :: st in t <==> Filled(st, 15, n1 + 1)
        invariant forall st | st in t && st != src :: RowUpTo(t[st], st, 10)
        invariant src in t && RowUpTo(t[src], src, n2)
      {
        FinalEntry(n1, n2);
        RowExtend(t[src], src, n2);
        if (n1 + Modi(15, n2)) % 10 == 0 {
          t := t[src := t[src][Digit(n2) := Accept]];
        }
      }
    }
  }

  /** The table `t` of main.py:36-58, built by the two loop nests in turn. */
  method BuildTable() returns (t: Table)
    ensures Realizes(t)
  {
    t := BuildLayerRows();
    t := AddFinalRows(t);
  }

  /** Realizes pins the table down: there is only one table it admits. */
  lemma RealizesUnique(t1: Table, t2: Table)
    requires Realizes(t1) && Realizes(t2)
    ensures t1 == t2
  {
    forall st | st in t1
      ensures t1[st] == t2[st]
    {
      assert t1[st].Keys == t2[st].Keys;
    }
  }

  /**
   * The table has a row for "S" and for every layer-1..15 state of `states`,
   * none for "E", and every row is keyed by digit symbols only, so no state has
   * more than ten transitions.
   */
  lemma {:induction false} TableShape(t: Table, st: State, c: char)
    requires Realizes(t)
    ensures st in t <==> st in States() && st != Accept
    ensures Accept !in t
    ensures st in t && c in t[st] ==> IsDigit(c)
  {
    StatesMembers(st);
  }

  /** Only the symbol '5' leaves the start state, and it leads to residue 1 of layer 1. */
  lemma StartRow(t: Table, c: char)
    requires Realizes(t)
    ensures Start in t
    ensures c in t[Start] <==> c == '5'
    ensures c in t[Start] ==> t[Start][c] == Work(1, 1)
  {
  }

  /**
   * The symbols with a transition: '1'..'5' at layer 1, all ten digits at
   * layers 2..14.
   */
  lemma PrefixRows(t: Table, pos: nat, r: nat, c: char)
    requires Realizes(t)
    requires 1 <= pos <= 14 && r <= 9
    ensures Work(pos, r) in t
    ensures pos == 1 ==> (c in t[Work(pos, r)] <==> '1' <= c <= '5')
    ensures 2 <= pos ==> (c in t[Work(pos, r)] <==> IsDigit(c))
  {
  }

  /**
   * Every transition below layer 15 goes from `p(pos, r)` to
   * `p(pos + 1, (r + modi(pos, d)) % 10)`, a member of `states` one layer up.
   */
  lemma StepAdvances(t: Table, st: State, c: char)
    requires Realizes(t)
    requires st in t && c in t[st] && Layer(st) <= 14
    ensures var r := if st == Start then 0 else st.res;
      t[st][c] == P(Layer(st) + 1, (r + Modi(Layer(st), Val(c))) % 10)
    ensures t[st][c] in States()
    ensures Layer(t[st][c]) == Layer(st) + 1
  {
    StatesMembers(t[st][c]);
  }

  /**
   * From each layer-15 state exactly one digit leads on, to the accepting
   * state: the one that tops the residue up to a multiple of ten.
   */
  lemma LastRow(t: Table, r: nat, c: char)
    requires Realizes(t)
    requires r <= 9
    ensures Work(15, r) in t
    ensures c in t[Work(15, r)] <==> c == Digit((10 - r) % 10)
    ensures c in t[Work(15, r)] ==> t[Work(15, r)][c] == Accept
  {
  }

  /** Every transition of the table moves exactly one layer up, so the table is a layered DAG. */
  lemma Layered(t: Table, st: State, c: char)
    requires Realizes(t)
    requires st in t && c in t[st]
    ensures Layer(t[st][c]) == Layer(st) + 1
    ensures t[st][c] in States()
  {
    if Layer(st) <= 14 {
      StepAdvances(t, st, c);
    } else {
      StatesMembers(t[st][c]);
    }
  }
}

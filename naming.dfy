/**
 * The states of the automaton and the names main.py gives them.
 *
 * The source names a state by a string: "S" for the start, "E" for the
 * accepting state, and "<position>:<residue>" for the state reached after
 * `position` digits whose weighted sum is `residue` modulo 10. Here a state
 * is a value of `State`; `Name` gives back the source's spelling, and
 * `NameInjective` shows that keying the table by `State` instead of by name
 * loses nothing.
 */
module Naming {
  import opened Digits

  datatype State = Start | Accept | Work(pos: nat, res: nat)

  /** The state name `p(p, n)` of main.py, as a state: position 0 is always the start. */
  function P(pos: nat, r: nat): State {
    if pos == 0 then Start else Work(pos, r)
  }

  /** The string the source uses for a state. */
  function Name(st: State): string {
    match st
    case Start => "S"
    case Accept => "E"
    case Work(pos, r) => NatToString(pos) + ":" + NatToString(r)
  }

  /** A state of layer 1..15 with a residue below the modulus. */
  predicate IsWorkState(st: State) {
    st.Work? && 1 <= st.pos <= 15 && st.res <= 9
  }

  /** The layer of a state: how many digits have been read on reaching it. */
  function Layer(st: State): nat {
    match st
    case Start => 0
    case Accept => 16
    case Work(pos, _) => pos
  }

  /** The list `states` of main.py, in the order its comprehension produces. */
  function States(): (s: seq<State>)
    ensures |s| == 152 && s[150] == Start && s[151] == Accept
  {
    seq(150, i requires 0 <= i < 150 => P(i / 10 + 1, i % 10)) + [Start, Accept]
  }

  /** Two different states never share a name. */
  lemma NameInjective(a: State, b: State)
    requires Name(a) == Name(b)
    ensures a == b
  {
    match a
    case Start =>
    case Accept =>
    case Work(p1, r1) =>
      var u1, v1 := NatToString(p1), NatToString(r1);
      assert Name(a)[|u1|] == ':';
      assert b.Work?;
      var u2, v2 := NatToString(b.pos), NatToString(b.res);
      assert Name(b)[|u2|] == ':';
      assert u1 == Name(a)[..|u1|] == Name(b)[..|u2|] == u2;
      assert v1 == Name(a)[|u1| + 1..] == Name(b)[|u2| + 1..] == v2;
      NatToStringInjective(p1, b.pos);
      NatToStringInjective(r1, b.res);
  }

  /**
   * The naming rule of main.py:13-16 and main.py:10: every position-0 pair is
   * named "S"; pairs with a position of at least 1 are named apart from one
   * another and from "S" and "E".
   */
  lemma NamingRule(p1: nat, r1: nat, p2: nat, r2: nat)
    ensures Name(P(0, r1)) == "S"
    ensures 1 <= p1 ==> Name(P(p1, r1)) != "S" && Name(P(p1, r1)) != "E"
    ensures 1 <= p1 && 1 <= p2 ==> (Name(P(p1, r1)) == Name(P(p2, r2)) <==> p1 == p2 && r1 == r2)
  {
    if 1 <= p1 {
      if Name(P(p1, r1)) == "S" { NameInjective(P(p1, r1), Start); }
      if Name(P(p1, r1)) == "E" { NameInjective(P(p1, r1), Accept); }
      if 1 <= p2 && Name(P(p1, r1)) == Name(P(p2, r2)) { NameInjective(P(p1, r1), P(p2, r2)); }
    }
  }

  /** `states` holds the start, the accepting state and every layer-1..15 state, and nothing else. */
  lemma StatesMembers(st: State)
    ensures st in States() <==> st == Start || st == Accept || IsWorkState(st)
  {
    var s := States();
    if IsWorkState(st) {
      var i := (st.pos - 1) * 10 + st.res;
      assert s[i] == st;
    }
    if st in s {
      var i :| 0 <= i < |s| && s[i] == st;
      if i < 150 {
        assert st == Work(i / 10 + 1, i % 10);
      }
    }
  }

  /** The 152 entries of `states` are pairwise different, so their names are too. */
  lemma StatesDistinct(i: int, j: int)
    requires 0 <= i < j < |States()|
    ensures States()[i] != States()[j]
    ensures Name(States()[i]) != Name(States()[j])
  {
    var s := States();
    if Name(s[i]) == Name(s[j]) { NameInjective(s[i], s[j]); }
    if j < 150 {
      assert s[i] == Work(i / 10 + 1, i % 10) && s[j] == Work(j / 10 + 1, j % 10);
    }
  }

  /** Concrete spellings, as they appear in the table of the source. */
  lemma NameExamples()
    ensures Name(P(3, 7)) == "3:7"
    ensures Name(P(15, 0)) == "15:0"
  {
  }
}

# Luhn-checking automaton for Mastercard numbers

This project models the core of `main.py`, a script that builds a
deterministic finite automaton over the ten digit symbols. The automaton
accepts exactly the 16-digit strings that start with `5`, have a second digit
in `1..5` (the Mastercard 51-55 range), and whose Luhn-weighted digit sum is a
multiple of ten. The script names the states, defines the Luhn weight `modi`,
and fills the transition table `t` with nested loops. It then hands the table
to an automaton library, which minimises it, checks the test cases and derives
a regular expression.

The model has these parts:

- `Digits`: the alphabet `n` and the decimal spelling `str(x)` used in state names.
- `Naming`: the state type (`Start`, `Accept`, `Work(pos, res)`), the namer `p`
  (`P`), the source's string names (`Name`), and the `states` list.
- `Luhn`: the weight `modi` (`Modi`), the weighted sum of a string (`LuhnSum`),
  and the summing loop of the script's dead self-check block (`Checksum`).
- `Transitions`: the two loop nests that build `t`, written as methods over a
  `map<State, map<char, State>>`. `Realizes(t)` says that `t` has a row for
  each key and that each row holds what the loops put there. The lemmas
  derive the table's shape from `Realizes` alone.
- `Acceptance`: our own run function `Run` (the library's `accepts` is not
  part of this model), the layer invariant, and the language theorem.
  `Language` states that `t` accepts `s` exactly when `IsMastercard(s)` holds.
  This module also has the dead-state lemma and concrete test cases.

The source keys its table by strings such as `"3:7"`. The model keys it by
`State` values instead. `NameInjective` shows that no two states share a name,
so this loses nothing.

The comment at main.py:45 speaks of the "50s range", but the condition at
main.py:48 also rejects `0`, and the model follows the condition: the second digit
must be in `1..5`.

## Model

| member | source | states |
|---|---|---|
| Digits.Digit | main.py:7 | `n[d]` is a digit symbol whose value is `d` |
| Digits.NatToString | main.py:16 | `str(x)` is a non-empty string of digits, one character long exactly when `x < 10` |
| Digits.NatToStringInjective | main.py:16 | different numbers have different decimal spellings |
| Naming.P | main.py:13-16 | `p(p, n)` as a state: `Start` at position 0 and the pair `(p, n)` otherwise; `Name` spells it as `"S"` or `str(p) + ":" + str(n)`, and `NamingRule` states that position 0 gives `"S"` and that `p` is injective and never `"S"` or `"E"` above it |
| Naming.States | main.py:19 | the list `states`: 150 layer states in comprehension order followed by `S` and `E`; its members are stated by `StatesMembers` and `StatesDistinct` |
| Naming.NameInjective | main.py:13-16 | different states never get the same name: `"S"`, `"E"` and `"<pos>:<res>"` are all distinct |
| Naming.NamingRule | main.py:10-16 | `p(0, r)` is `"S"` for every `r`; for positions of at least 1, `p` is injective and never yields `"S"` or `"E"` |
| Naming.NameExamples | main.py:16 | concrete names: `p(3, 7)` is `"3:7"` and `p(15, 0)` is `"15:0"` |
| Naming.StatesMembers | main.py:19 | `states` contains exactly `S`, `E` and the pairs of layers 1..15 with residues 0..9 |
| Naming.StatesDistinct | main.py:19 | the 152 entries of `states` are pairwise different, and so are their names |
| Luhn.Modi | main.py:22-29 | `modi(p, n)`: a doubled digit, less nine above 4, at even positions and the digit itself at odd ones; `ModiIsLuhnWeight` states its range 0..9 and its meaning as Luhn's digit sum of the double |
| Luhn.ModiIsLuhnWeight | main.py:22-29 | for a digit `d`, `modi(pos, d)` is in 0..9; it equals the digit sum of `2d` at even positions and `d` at odd positions |
| Luhn.ModiInjective | main.py:22-29 | at a fixed position, different digits have different weights |
| Luhn.Checksum | main.py:103-105 | the left-to-right summing loop computes exactly the weighted sum `LuhnSum(s)` |
| Luhn.SingleErrorDetected | main.py:81-95 | two digit strings that differ in one digit have different Luhn residues, so a one-digit change of a valid number always fails |
| Transitions.Delta | main.py:40-58 | the entry the loops put in a row: an entry exists only for a digit and always leads exactly one layer up; `BuildTable` proves the loops fill `t` by this rule |
| Transitions.BuildLayerRows | main.py:36-51 | the first loop nest gives a row to `S` and to each layer-1..14 state, and nothing else; every row holds exactly the entries of the transition rule |
| Transitions.AddFinalRows | main.py:53-58 | the second loop nest adds one row per layer-15 state, which completes the table |
| Transitions.BuildTable | main.py:36-58 | the finished table satisfies `Realizes`: its keys and all of its entries are as the loops define them |
| Transitions.RealizesUnique | main.py:36-58 | `Realizes` determines the table completely |
| Transitions.TableShape | main.py:36-58 | `t` has keys exactly for the members of `states` other than `E`; `E` has no row; only digit symbols label transitions, so each state has at most ten |
| Transitions.StartRow | main.py:40-51 | only `'5'` leaves the start state, and it leads to `p(1, 1)` |
| Transitions.PrefixRows | main.py:44-51 | layer-1 states have transitions on `'1'..'5'` only; layers 2..14 have them on all ten digits |
| Transitions.StepAdvances | main.py:51 | a transition from `p(pos, r)` with `pos <= 14` goes to `p(pos + 1, (r + modi(pos, d)) % 10)`, a member of `states` one layer up |
| Transitions.LastRow | main.py:54-58 | from `p(15, r)` exactly one digit has a transition, namely `(10 - r) % 10`, and it leads to `E` |
| Transitions.Layered | main.py:51-58 | every transition goes up exactly one layer, so the table is a layered DAG |
| Acceptance.Run | main.py:125 | stands in for the library's `accepts`: reads the string symbol by symbol from a state and stops at the first missing transition; its behaviour through `t` is stated by `RunAppend`, `LayerInvariant` and `FullLength` |
| Acceptance.Accepts | main.py:125 | a string is accepted when its run from `S` ends in `E`; which strings these are is stated by `Language` |
| Acceptance.RunAppend | main.py:125 | reading `a + b` is the same as reading `a` and then reading `b` from the state reached |
| Acceptance.LayerInvariant | main.py:37-51 | after `k` digits (1 <= k <= 15) the run is at `p(k, LuhnSum % 10)` if the prefix rule holds; otherwise it has already stopped |
| Acceptance.FullLength | main.py:54-58 | a 16-symbol string reaches `E` exactly when it is a valid number; otherwise the run stops |
| Acceptance.Language | main.py:36-58 | the language theorem: `t` accepts `s` if and only if `s` has 16 digits, starts with 5, has a second digit in 1..5, and has a Luhn sum that is a multiple of 10 |
| Acceptance.CompletionAccepted | main.py:36-58 | from every layer-1..15 state, an explicit string with one digit per remaining layer reaches `E` |
| Acceptance.NoDeadStates | main.py:36-58 | every state that has a row can reach `E` in exactly the number of layers left |
| Acceptance.GeneratedCardsValid | main.py:72-74 | the generated cards `5222084305213022` and `5306937024627310` are valid numbers |
| Acceptance.BaseCardValid | main.py:76 | the card `5216055885117468` is valid |
| Acceptance.RejectedCardsInvalid | main.py:80-96 | `6216055885117468` and `5216055885117469` are invalid; `4356180747362517` passes Luhn's check but fails the prefix rule |
| Acceptance.Examples | main.py:123-129 | the table accepts the three valid cards above and rejects the three invalid ones |

## Left out

- The automaton library (`fsm.fsm`, `reduce`, `accepts`, `lego.from_fsm`, main.py:61-67, 115, 125, 137) is not part of this model. `Run` over the modelled table stands in for `accepts`. Minimisation is assumed to keep the language, so the theorem about the unminimised table is what the tests rely on.
- Luhn.Checksum: matches the loop of main.py:103-105 only on strings of ASCII digits, the only strings the suite passes it. In the source, `int(c)` raises `ValueError` on a non-digit symbol and reads other Unicode decimal digits by their value; the model's `Val(c)` is `c - '0'` for every character and raises nothing.
- All printing and the `exit` calls (main.py:107-108, 110-139) are console I/O.
- The dead `if False:` block (main.py:101-108) is modelled only through its summing loop (`Checksum`). Its comparison against the expected verdict and its error report are not modelled. Its rebinding of `n` and `s` at main.py:102-103 never runs. Line 123 rebinds `n` only, after `t` is built, and does not affect it.
- Examples: 6 of the 24 cases of main.py:70-96 are checked one by one. The other 14 one-digit variants of `5216055885117468` (main.py:81-94) are covered by the general lemma `SingleErrorDetected`, not one by one. The other four generated cards (main.py:73, 75, 77-78) are not restated.
- Symbols outside the ten digits are rejected: they never label a transition, so `Run` stops on them. How the library handles symbols outside its alphabet is not modelled.
- Python's dictionaries are mutable objects. The model uses immutable `map` values that are reassigned, which is equivalent here because nothing else refers to the inner dictionaries while they are filled.
- Lengths other than 16, moduli other than 10, and other weight rules or prefixes are not modelled, because the code hard-codes these constants.

/** State-name translation and the one-line state summary used in log messages. */
module Utils {

  /** The names of the five door states, indexed by their HAP number. */
  const STATE_NAMES: seq<string> := ["OPEN", "CLOSED", "OPENING", "CLOSING", "STOPPED"]

  /** The name given to any number that is not a door state. */
  const UNKNOWN_NAME := "undefined"

  /** True when `state` is one of the five door-state numbers. */
  predicate IsDoorState(state: int) {
    0 <= state < |STATE_NAMES|
  }

  /** The name of a door-state number, or "undefined" for any other number. */
  function TranslateState(state: int): (name: string)
    ensures IsDoorState(state) ==> name == STATE_NAMES[state]
    ensures !IsDoorState(state) ==> name == UNKNOWN_NAME
  {
    match state
    case 0 => "OPEN"
    case 1 => "CLOSED"
    case 2 => "OPENING"
    case 3 => "CLOSING"
    case 4 => "STOPPED"
    case _ => "undefined"
  }

  /** The five door states have five different names, none of them "undefined". */
  lemma TranslateStateInjective(a: int, b: int)
    requires IsDoorState(a) && IsDoorState(b)
    requires TranslateState(a) == TranslateState(b)
    ensures a == b
    ensures TranslateState(a) != UNKNOWN_NAME
  {
  }

  /** A number is a door state exactly when its name is not "undefined". */
  lemma TranslateStateKnown(state: int)
    ensures IsDoorState(state) <==> TranslateState(state) != UNKNOWN_NAME
  {
  }

  /** The summary line "[CURRENT=…] [LAST=…] [TARGET=…]". */
  function PrintCurrentStates(currentState: int, lastState: int, targetState: int): (line: string)
    ensures |line| > 9 && line[..9] == "[CURRENT=" && line[|line| - 1] == ']'
    ensures IndexOf(line, ']') == 9 + |TranslateState(currentState)|
  {
    NoBracketInName(currentState);
    SummaryFirstBracket(TranslateState(currentState), TranslateState(lastState), TranslateState(targetState));
    "[CURRENT=" + TranslateState(currentState) + "] [LAST=" + TranslateState(lastState)
      + "] [TARGET=" + TranslateState(targetState) + "]"
  }

  /** The position of the first `ch` in `s`, or `|s|` when there is none. */
  ghost function IndexOf(s: string, ch: char): nat {
    if s == [] then 0 else if s[0] == ch then 0 else 1 + IndexOf(s[1..], ch)
  }

  lemma {:induction false} IndexOfBracket(a: string, b: string)
    requires ']' !in a
    ensures IndexOf(a + "]" + b, ']') == |a|
  {
    if a != [] {
      assert (a + "]" + b)[1..] == a[1..] + "]" + b;
      IndexOfBracket(a[1..], b);
    }
  }

  /** A string cut at its first ']' splits back into the two pieces it was built from. */
  lemma SplitAtBracket(a: string, b: string, a': string, b': string)
    requires ']' !in a && ']' !in a'
    requires a + "]" + b == a' + "]" + b'
    ensures a == a' && b == b'
  {
    var s := a + "]" + b;
    IndexOfBracket(a, b);
    IndexOfBracket(a', b');
    assert |a| == |a'|;
    assert a == s[..|a|];
    assert a' == s[..|a'|];
    assert b == s[|a| + 1..];
    assert b' == s[|a'| + 1..];
  }

  lemma NoBracketInName(state: int)
    ensures ']' !in TranslateState(state)
  {
  }

  /** Two strings "p + x + ']' + rest" with a common prefix and bracket-free `x` agree piecewise. */
  lemma Segment(p: string, x: string, rest: string, x': string, rest': string)
    requires ']' !in x && ']' !in x'
    requires p + (x + "]" + rest) == p + (x' + "]" + rest')
    ensures x == x' && rest == rest'
  {
    assert x + "]" + rest == (p + (x + "]" + rest))[|p|..];
    assert x' + "]" + rest' == (p + (x' + "]" + rest'))[|p|..];
    SplitAtBracket(x, rest, x', rest');
  }

  lemma RegroupSummary(x: string, y: string, z: string)
    ensures "[CURRENT=" + x + "] [LAST=" + y + "] [TARGET=" + z + "]"
         == "[CURRENT=" + (x + "]" + (" [LAST=" + (y + "]" + (" [TARGET=" + (z + "]" + [])))))
  {
    assert "] [LAST=" == "]" + " [LAST=";
    assert "] [TARGET=" == "]" + " [TARGET=";
  }

  /** In a summary the first ']' closes the current state's name. */
  lemma SummaryFirstBracket(x: string, y: string, z: string)
    requires ']' !in x
    ensures IndexOf("[CURRENT=" + x + "] [LAST=" + y + "] [TARGET=" + z + "]", ']') == 9 + |x|
  {
    var tail := " [LAST=" + (y + "]" + (" [TARGET=" + (z + "]" + [])));
    RegroupSummary(x, y, z);
    assert "[CURRENT=" + (x + "]" + tail) == ("[CURRENT=" + x) + "]" + tail;
    assert ']' !in "[CURRENT=";
    assert forall i :: 0 <= i < |"[CURRENT=" + x| ==> ("[CURRENT=" + x)[i] != ']';
    IndexOfBracket("[CURRENT=" + x, tail);
  }

  /** A summary built from three bracket-free names determines them. */
  lemma SummaryDecodes(x: string, y: string, z: string, x': string, y': string, z': string)
    requires ']' !in x && ']' !in y && ']' !in z
    requires ']' !in x' && ']' !in y' && ']' !in z'
    requires "[CURRENT=" + x + "] [LAST=" + y + "] [TARGET=" + z + "]"
          == "[CURRENT=" + x' + "] [LAST=" + y' + "] [TARGET=" + z' + "]"
    ensures x == x' && y == y' && z == z'
  {
    RegroupSummary(x, y, z);
    RegroupSummary(x', y', z');
    var rest := " [TARGET=" + (z + "]" + []);
    var rest' := " [TARGET=" + (z' + "]" + []);
    Segment("[CURRENT=", x, " [LAST=" + (y + "]" + rest), x', " [LAST=" + (y' + "]" + rest'));
    Segment(" [LAST=", y, rest, y', rest');
    Segment(" [TARGET=", z, [], z', []);
  }

  /** The summary line determines the three names it was built from. */
  lemma PrintCurrentStatesDecodes(c: int, l: int, t: int, c': int, l': int, t': int)
    requires PrintCurrentStates(c, l, t) == PrintCurrentStates(c', l', t')
    ensures TranslateState(c) == TranslateState(c')
    ensures TranslateState(l) == TranslateState(l')
    ensures TranslateState(t) == TranslateState(t')
  {
    NoBracketInName(c);
    NoBracketInName(l);
    NoBracketInName(t);
    NoBracketInName(c');
    NoBracketInName(l');
    NoBracketInName(t');
    SummaryDecodes(TranslateState(c), TranslateState(l), TranslateState(t),
                   TranslateState(c'), TranslateState(l'), TranslateState(t'));
  }

  /** For door-state numbers the summary line determines the three states themselves. */
  lemma PrintCurrentStatesInjective(c: int, l: int, t: int, c': int, l': int, t': int)
    requires IsDoorState(c) && IsDoorState(l) && IsDoorState(t)
    requires IsDoorState(c') && IsDoorState(l') && IsDoorState(t')
    ensures PrintCurrentStates(c, l, t) == PrintCurrentStates(c', l', t') ==> c == c' && l == l' && t == t'
  {
    if PrintCurrentStates(c, l, t) == PrintCurrentStates(c', l', t') {
      PrintCurrentStatesDecodes(c, l, t, c', l', t');
      TranslateStateInjective(c, c');
      TranslateStateInjective(l, l');
      TranslateStateInjective(t, t');
    }
  }
}

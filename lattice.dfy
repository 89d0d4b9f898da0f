/**
 * The complexity labels of both analyzers are strings ranked by their position in a fixed
 * order list, found with `indexOf`. A label that is not in the list ranks -1 and so loses
 * every comparison against a label that is.
 *
 * The labels the analyzers can produce are the values of `Complexity`; `Label` gives each its
 * exact string, and it is injective, so ranking the values in a list of values is ranking
 * their strings in the list of strings (`IndexOfLabel`).
 */
module Lattice {
  import opened Text

  /** `order.indexOf(name)`: the first position of `name`, or -1 when it is absent. */
  function IndexOf<T(==)>(order: seq<T>, name: T): (i: int)
    ensures -1 <= i < |order|
    ensures i == -1 <==> name !in order
    ensures 0 <= i ==> order[i] == name && name !in order[..i]
  {
    IndexFrom(order, name, 0)
  }

  /** The first position at or after `from` that holds `name`, or -1 when there is none. */
  function IndexFrom<T(==)>(order: seq<T>, name: T, from: nat): (i: int)
    requires from <= |order|
    ensures i == -1 || from <= i < |order|
    ensures i == -1 <==> name !in order[from..]
    ensures 0 <= i ==> order[i] == name && name !in order[from..i]
    decreases |order| - from
  {
    if from == |order| then -1
    else if order[from] == name then from
    else
      var i := IndexFrom(order, name, from + 1);
      assert order[from..] == [order[from]] + order[from + 1..];
      assert 0 <= i ==> order[from..i] == [order[from]] + order[from + 1..i];
      i
  }

  /** Appending to a list does not move what `indexOf` finds in it, and finds a new name at the end. */
  lemma IndexOfAppend<T>(order: seq<T>, x: T, name: T)
    ensures name in order ==> IndexOf(order + [x], name) == IndexOf(order, name)
    ensures name !in order && name == x ==> IndexOf(order + [x], name) == |order|
  {
    var i := IndexOf(order + [x], name);
    var j := IndexOf(order, name);
    if name in order {
      assert (order + [x])[..j] == order[..j];
      assert (order + [x])[j] == name;
    } else if name == x {
      assert (order + [x])[..|order|] == order;
    }
  }

  function MaxInt(a: int, b: int): int {
    if a >= b then a else b
  }

  /**
   * The JavaScript estimators' update: `if (newIdx > currentIdx) current = comp`. The
   * current label is replaced only by one ranked strictly higher.
   */
  function Raise<T(==)>(order: seq<T>, current: T, comp: T): (r: T)
    ensures r == current || r == comp
    ensures IndexOf(order, r) == MaxInt(IndexOf(order, current), IndexOf(order, comp))
    ensures IndexOf(order, comp) <= IndexOf(order, current) ==> r == current
  {
    if IndexOf(order, comp) > IndexOf(order, current) then comp else current
  }

  /**
   * The Python estimators' `compareComplexity(a, b)`: the operand of higher rank, and `b`
   * when both rank the same.
   */
  function Compare<T(==)>(order: seq<T>, a: T, b: T): (r: T)
    ensures r == a || r == b
    ensures IndexOf(order, r) == MaxInt(IndexOf(order, a), IndexOf(order, b))
    ensures IndexOf(order, a) == IndexOf(order, b) ==> r == b
  {
    if IndexOf(order, a) > IndexOf(order, b) then a else b
  }

  /** Once the current label is in the list, every update keeps it there. */
  lemma RaiseStaysInOrder<T>(order: seq<T>, current: T, comp: T)
    requires current in order
    ensures Raise(order, current, comp) in order
    ensures IndexOf(order, Raise(order, current, comp)) >= IndexOf(order, current)
  {
  }

  /** The same holds for the Python comparison when its first operand is in the list. */
  lemma CompareStaysInOrder<T>(order: seq<T>, a: T, b: T)
    requires a in order
    ensures Compare(order, a, b) in order
    ensures IndexOf(order, Compare(order, a, b)) >= IndexOf(order, a)
  {
  }

  /** Two labels of the list with the same rank are the same label. */
  lemma SameRankSameLabel<T>(order: seq<T>, a: T, b: T)
    requires a in order && b in order
    requires IndexOf(order, a) == IndexOf(order, b)
    ensures a == b
  {
  }

  /**
   * On labels of the list the two update rules agree: keeping the current label on a tie
   * (JavaScript) and taking the new one (Python) give the same label.
   */
  lemma RaiseIsCompare<T>(order: seq<T>, current: T, comp: T)
    requires current in order
    ensures Raise(order, current, comp) == Compare(order, current, comp)
  {
    if IndexOf(order, comp) == IndexOf(order, current) {
      SameRankSameLabel(order, current, comp);
    }
  }

  /** On labels of the list the comparison is a join: commutative and associative. */
  lemma CompareCommutes<T>(order: seq<T>, a: T, b: T)
    requires a in order && b in order
    ensures Compare(order, a, b) == Compare(order, b, a)
  {
    if IndexOf(order, a) == IndexOf(order, b) {
      SameRankSameLabel(order, a, b);
    }
  }

  lemma CompareAssociates<T>(order: seq<T>, a: T, b: T, c: T)
    requires a in order && b in order && c in order
    ensures Compare(order, Compare(order, a, b), c) == Compare(order, a, Compare(order, b, c))
  {
    var l := Compare(order, Compare(order, a, b), c);
    var r := Compare(order, a, Compare(order, b, c));
    SameRankSameLabel(order, l, r);
  }

  /** The first label of the list is the identity of the comparison. */
  lemma FirstIsIdentity<T>(order: seq<T>, a: T)
    requires a in order
    ensures Compare(order, order[0], a) == a
    ensures Compare(order, a, order[0]) == a
  {
    if IndexOf(order, a) == 0 {
      SameRankSameLabel(order, a, order[0]);
    }
  }

  /** The label `O(n^${k})` that both analyzers build from a count. */
  function PowerLabel(k: nat): (r: string)
    ensures |r| >= 6 && r[..4] == "O(n^" && r[|r| - 1] == ')'
  {
    "O(n^" + NatToString(k) + ")"
  }

  /** Two counts give the same label only when they are equal. */
  lemma PowerLabelInjective(a: nat, b: nat)
    requires PowerLabel(a) == PowerLabel(b)
    ensures a == b
  {
    var la, lb := PowerLabel(a), PowerLabel(b);
    assert NatToString(a) == la[4..|la| - 1];
    assert NatToString(b) == lb[4..|lb| - 1];
    NatToStringInjective(a, b);
  }

  /** The labels the analyzers produce. */
  datatype Complexity =
    | Constant      // "O(1)"
    | Logarithmic   // "O(log n)"
    | Linear        // "O(n)"
    | Linearithmic  // "O(n log n)"
    | Quadratic     // "O(n²)", with the superscript two of the JavaScript estimator
    | Exponential   // "O(2^n)"
    | Power(k: nat) // "O(n^k)", built from a count

  /** The exact string of a label. */
  function Label(c: Complexity): (r: string)
    ensures |r| >= 4 && r[..2] == "O(" && r[|r| - 1] == ')'
  {
    match c
    case Constant => "O(1)"
    case Logarithmic => "O(log n)"
    case Linear => "O(n)"
    case Linearithmic => "O(n log n)"
    case Quadratic => "O(n²)"
    case Exponential => "O(2^n)"
    case Power(k) => PowerLabel(k)
  }

  /** Only the power labels have 'n' then '^' after "O(". */
  lemma PowerLabelShape(c: Complexity)
    ensures Label(c)[2] == 'n' && Label(c)[3] == '^' <==> c.Power?
  {
    if c.Power? {
      assert Label(c)[..4] == "O(n^";
    }
  }

  /** Distinct labels have distinct strings. */
  lemma LabelInjective(a: Complexity, b: Complexity)
    requires Label(a) == Label(b)
    ensures a == b
  {
    if a.Power? && b.Power? {
      PowerLabelInjective(a.k, b.k);
    } else if a.Power? || b.Power? {
      PowerLabelShape(a);
      PowerLabelShape(b);
      assert false;
    }
  }

  /** The strings of a list of labels, in order. */
  function Labels(order: seq<Complexity>): (r: seq<string>)
    ensures |r| == |order|
    ensures forall i :: 0 <= i < |order| ==> r[i] == Label(order[i])
  {
    if order == [] then [] else Labels(order[..|order| - 1]) + [Label(order[|order| - 1])]
  }

  /** Looking a label up among labels is looking its string up among their strings. */
  lemma IndexOfLabel(order: seq<Complexity>, c: Complexity)
    ensures IndexOf(Labels(order), Label(c)) == IndexOf(order, c)
  {
    var ts := Labels(order);
    var i := IndexOf(order, c);
    var j := IndexOf(ts, Label(c));
    if 0 <= j {
      LabelInjective(order[j], c);
      assert order[..j + 1][j] == c;
    }
    if 0 <= i {
      assert ts[..i + 1][i] == Label(c);
    }
  }
}

/**
 * distutils `LooseVersion`, which `Peer.supports` (stormbot/bot.py) uses to
 * compare a peer's advertised plugin version with the version a caller needs.
 *
 * A version string is cut into components: maximal runs of decimal digits
 * become numbers, maximal runs of lower-case letters and maximal runs of any
 * other character (except '.') become words, and dots only separate.
 * Versions compare as Python lists do: component by component, a shorter
 * list that is a prefix of a longer one being smaller. Python 3 refuses to
 * order a number against a word (TypeError); that outcome is `Incomparable`.
 */
module LooseVersion {
  import opened Wrappers

  datatype Component = Number(value: nat) | Word(text: string)

  datatype CharClass = Digit | Lower | Dot | Other

  datatype Order = Less | Equal | Greater

  function ClassOf(c: char): CharClass
  {
    if '0' <= c <= '9' then Digit
    else if 'a' <= c <= 'z' then Lower
    else if c == '.' then Dot
    else Other
  }

  /** Length of the longest prefix of `s` whose characters are all of class `k`. */
  function RunLength(s: string, k: CharClass): (n: nat)
    ensures n <= |s|
    ensures forall i :: 0 <= i < n ==> ClassOf(s[i]) == k
    ensures n < |s| ==> ClassOf(s[n]) != k
  {
    if s == [] || ClassOf(s[0]) != k then 0 else 1 + RunLength(s[1..], k)
  }

  function DigitValue(c: char): nat
  {
    if '0' <= c <= '9' then (c as int - '0' as int) else 0
  }

  /** Python's `int(digits)` on a run of decimal digits. */
  function DecimalValue(digits: string): nat
  {
    if digits == [] then 0
    else DecimalValue(digits[..|digits| - 1]) * 10 + DigitValue(digits[|digits| - 1])
  }

  /** A maximal run of lower-case letters, or of characters that are neither digits, letters nor dots. */
  predicate IsWord(t: string)
  {
    t != "" &&
    ((forall i :: 0 <= i < |t| ==> ClassOf(t[i]) == Lower) || (forall i :: 0 <= i < |t| ==> ClassOf(t[i]) == Other))
  }

  /**
   * `LooseVersion.parse`: the components of a version string. Dots only
   * separate, so there are never more components than characters, and every
   * word is one homogeneous run.
   */
  function Components(v: string): (r: seq<Component>)
    ensures |r| <= |v|
    ensures forall i :: 0 <= i < |r| && r[i].Word? ==> IsWord(r[i].text)
    decreases |v|
  {
    if v == [] then []
    else if v[0] == '.' then Components(v[1..])
    else
      var k := ClassOf(v[0]);
      var n := RunLength(v, k);
      var token := v[..n];
      (if k == Digit then [Number(DecimalValue(token))] else [Word(token)]) + Components(v[n..])
  }

  /** Python's `<` on two strings: code point by code point. */
  function CompareText(a: string, b: string): (r: Order)
    ensures r == Equal <==> a == b
  {
    if a == [] && b == [] then Equal
    else if a == [] then Less
    else if b == [] then Greater
    else if a[0] < b[0] then Less
    else if a[0] > b[0] then Greater
    else CompareText(a[1..], b[1..])
  }

  /** Ordering of two differing components; None when Python raises TypeError. */
  function CompareComponent(a: Component, b: Component): Option<Order>
  {
    match (a, b)
    case (Number(x), Number(y)) => Some(if x < y then Less else if x > y then Greater else Equal)
    case (Word(x), Word(y)) => Some(CompareText(x, y))
    case _ => None
  }

  /** Python's list comparison on component lists. */
  function Compare(a: seq<Component>, b: seq<Component>): (r: Option<Order>)
    ensures r == Some(Equal) <==> a == b
    ensures a != [] && b != [] && a[0].Number? != b[0].Number? ==> r.None?
  {
    if a == [] && b == [] then Some(Equal)
    else if a == [] then Some(Less)
    else if b == [] then Some(Greater)
    else if a[0] == b[0] then Compare(a[1..], b[1..])
    else CompareComponent(a[0], b[0])
  }

  /**
   * `LooseVersion(stored) >= LooseVersion(wanted)`; None when the comparison
   * raises: TypeError for a number against a word, and AttributeError when
   * either string is empty, since `LooseVersion("")` is never parsed and so
   * has no `version` to compare.
   */
  function AtLeast(stored: string, wanted: string): (r: Option<bool>)
    ensures stored == "" || wanted == "" ==> r.None?
    ensures stored != "" && wanted != "" ==>
      (r.None? <==> Compare(Components(stored), Components(wanted)).None?)
    ensures r == Some(true) ==> Compare(Components(stored), Components(wanted)) != Some(Less)
    ensures r == Some(false) ==> Compare(Components(stored), Components(wanted)) == Some(Less)
  {
    if stored == "" || wanted == "" then None
    else match Compare(Components(stored), Components(wanted))
      case None => None
      case Some(o) => Some(o != Less)
  }

  predicate DigitsAndDots(v: string)
  {
    forall i :: 0 <= i < |v| ==> ClassOf(v[i]) == Digit || ClassOf(v[i]) == Dot
  }

  /** A non-empty version made of digits and dots only. */
  predicate IsNumeric(v: string)
  {
    v != "" && DigitsAndDots(v)
  }

  predicate AllNumbers(cs: seq<Component>)
  {
    forall i :: 0 <= i < |cs| ==> cs[i].Number?
  }

  function Values(cs: seq<Component>): (ns: seq<nat>)
    requires AllNumbers(cs)
    ensures |ns| == |cs|
    ensures forall i :: 0 <= i < |cs| ==> ns[i] == cs[i].value
  {
    if cs == [] then [] else [cs[0].value] + Values(cs[1..])
  }

  /**
   * Reference definition of "x is at least y" for number lists, independent
   * of the recursive comparison: y is a prefix of x, or at the first place
   * where they differ x holds the larger number.
   */
  ghost predicate LexAtLeast(x: seq<nat>, y: seq<nat>)
  {
    (|y| <= |x| && x[..|y|] == y)
    || exists i :: 0 <= i < |x| && i < |y| && x[..i] == y[..i] && x[i] > y[i]
  }

  /** Digit-and-dot versions parse into numbers only. */
  lemma {:induction false} NumericComponents(v: string)
    requires DigitsAndDots(v)
    ensures AllNumbers(Components(v))
    decreases |v|
  {
    if v != [] {
      if v[0] == '.' {
        NumericComponents(v[1..]);
      } else {
        var n := RunLength(v, ClassOf(v[0]));
        assert ClassOf(v[0]) == Digit;
        NumericComponents(v[n..]);
      }
    }
  }

  lemma LexAtLeastCons(h: nat, x: seq<nat>, y: seq<nat>)
    ensures LexAtLeast([h] + x, [h] + y) <==> LexAtLeast(x, y)
  {
    if LexAtLeast(x, y) {
      ConsKeepsOrder(h, x, y);
    }
    if LexAtLeast([h] + x, [h] + y) {
      ConsReflectsOrder(h, x, y);
    }
  }

  lemma ConsKeepsOrder(h: nat, x: seq<nat>, y: seq<nat>)
    requires LexAtLeast(x, y)
    ensures LexAtLeast([h] + x, [h] + y)
  {
    var X, Y := [h] + x, [h] + y;
    if |y| <= |x| && x[..|y|] == y {
      assert X[..|Y|] == [h] + x[..|y|];
    } else {
      var i :| 0 <= i < |x| && i < |y| && x[..i] == y[..i] && x[i] > y[i];
      assert X[..i + 1] == [h] + x[..i] && Y[..i + 1] == [h] + y[..i];
      assert X[i + 1] > Y[i + 1];
      assert 0 <= i + 1 < |X| && i + 1 < |Y| && X[..i + 1] == Y[..i + 1] && X[i + 1] > Y[i + 1];
    }
  }

  lemma ConsReflectsOrder(h: nat, x: seq<nat>, y: seq<nat>)
    requires LexAtLeast([h] + x, [h] + y)
    ensures LexAtLeast(x, y)
  {
    var X, Y := [h] + x, [h] + y;
    if |Y| <= |X| && X[..|Y|] == Y {
      assert x[..|y|] == X[..|Y|][1..];
    } else {
      var i :| 0 <= i < |X| && i < |Y| && X[..i] == Y[..i] && X[i] > Y[i];
      assert i > 0;
      assert x[..i - 1] == X[..i][1..] && y[..i - 1] == Y[..i][1..];
      assert x[i - 1] > y[i - 1];
      assert 0 <= i - 1 < |x| && i - 1 < |y| && x[..i - 1] == y[..i - 1] && x[i - 1] > y[i - 1];
    }
  }

  lemma LexAtLeastHead(x: seq<nat>, y: seq<nat>)
    requires |x| > 0 && |y| > 0 && x[0] != y[0]
    ensures LexAtLeast(x, y) <==> x[0] > y[0]
  {
    assert x[..0] == y[..0];
    assert |y| <= |x| ==> x[..|y|][0] == x[0];
    forall i | 0 < i <= |x| && i <= |y|
      ensures x[..i][0] == x[0] && y[..i][0] == y[0]
    {
    }
  }

  /**
   * On number lists the comparison never raises, and "not Less" is exactly
   * the reference order: "1.10" is at least "1.9".
   */
  lemma {:induction false} CompareNumbers(a: seq<Component>, b: seq<Component>)
    requires AllNumbers(a) && AllNumbers(b)
    ensures Compare(a, b).Some?
    ensures Compare(a, b) != Some(Less) <==> LexAtLeast(Values(a), Values(b))
  {
    var x, y := Values(a), Values(b);
    if a == [] || b == [] {
      if a == [] && b != [] {
        assert !(|y| <= |x|);
      }
    } else if a[0] == b[0] {
      CompareNumbers(a[1..], b[1..]);
      assert x == [x[0]] + Values(a[1..]) && y == [x[0]] + Values(b[1..]);
      LexAtLeastCons(x[0], Values(a[1..]), Values(b[1..]));
    } else {
      LexAtLeastHead(x, y);
    }
  }

  /** Comparison swaps sides consistently, so `>=` and `<=` agree. */
  lemma {:induction false} CompareSwap(a: seq<Component>, b: seq<Component>)
    ensures Compare(a, b) == Some(Less) <==> Compare(b, a) == Some(Greater)
    ensures Compare(a, b).None? <==> Compare(b, a).None?
  {
    if a != [] && b != [] {
      if a[0] == b[0] {
        CompareSwap(a[1..], b[1..]);
      } else {
        match (a[0], b[0])
        case (Word(x), Word(y)) => TextSwap(x, y);
        case _ =>
      }
    }
  }

  lemma {:induction false} TextSwap(x: string, y: string)
    ensures CompareText(x, y) == Less <==> CompareText(y, x) == Greater
  {
    if x != [] && y != [] && x[0] == y[0] {
      TextSwap(x[1..], y[1..]);
    }
  }

  /** Every non-empty version is at least itself; the empty one cannot be compared at all. */
  lemma {:induction false} AtLeastReflexive(v: string)
    ensures AtLeast(v, v) == if v == "" then None else Some(true)
  {
    CompareSelf(Components(v));
  }

  lemma {:induction false} CompareSelf(a: seq<Component>)
    ensures Compare(a, a) == Some(Equal)
  {
    if a != [] {
      CompareSelf(a[1..]);
    }
  }

  /** A non-empty run of digits is one number. */
  lemma {:induction false} DigitsComponent(d: string)
    requires d != [] && forall i :: 0 <= i < |d| ==> ClassOf(d[i]) == Digit
    ensures RunLength(d, Digit) == |d|
    ensures Components(d) == [Number(DecimalValue(d))]
  {
    DigitsRun(d);
    assert d[..|d|] == d && d[|d|..] == [];
  }

  lemma {:induction false} DigitsRun(d: string)
    requires forall i :: 0 <= i < |d| ==> ClassOf(d[i]) == Digit
    ensures RunLength(d, Digit) == |d|
  {
    if d != [] {
      DigitsRun(d[1..]);
    }
  }

  /** Digits, a dot, and more: the digits give the first number. */
  lemma {:induction false} DigitsThenDot(d: string, rest: string)
    requires d != [] && forall i :: 0 <= i < |d| ==> ClassOf(d[i]) == Digit
    ensures Components(d + "." + rest) == [Number(DecimalValue(d))] + Components(rest)
  {
    var v := d + "." + rest;
    DigitsRun(d);
    assert v[..|d|] == d;
    assert RunLength(v, Digit) == |d| by {
      assert ("." + rest)[0] == '.';
      assert v == d + ("." + rest);
      RunPrefix(d, "." + rest, Digit);
    }
    assert v[|d|..] == "." + rest;
    assert ("." + rest)[1..] == rest;
  }

  lemma {:induction false} RunPrefix(d: string, tail: string, k: CharClass)
    requires forall i :: 0 <= i < |d| ==> ClassOf(d[i]) == k
    requires tail != [] && ClassOf(tail[0]) != k
    ensures RunLength(d + tail, k) == |d|
  {
    if d != [] {
      assert (d + tail)[1..] == d[1..] + tail;
      RunPrefix(d[1..], tail, k);
    } else {
      assert d + tail == tail;
    }
  }

  /** Numeric order, not string order: "1.10" >= "1.9" but not the reverse. */
  lemma NumericNotLexicographic()
    ensures AtLeast("1.10", "1.9") == Some(true)
    ensures AtLeast("1.9", "1.10") == Some(false)
  {
    OneTen();
    OneNine();
    CompareTenNine();
  }

  lemma OneTen()
    ensures Components("1.10") == [Number(1), Number(10)]
  {
    TenAndNine();
    assert "1.10" == "1." + "10";
    OneDotComponents("10", 10);
  }

  lemma OneNine()
    ensures Components("1.9") == [Number(1), Number(9)]
  {
    TenAndNine();
    assert "1.9" == "1." + "9";
    OneDotComponents("9", 9);
  }

  lemma CompareTenNine()
    ensures Compare([Number(1), Number(10)], [Number(1), Number(9)]) == Some(Greater)
    ensures Compare([Number(1), Number(9)], [Number(1), Number(10)]) == Some(Less)
  {
    var a, b := [Number(1), Number(10)], [Number(1), Number(9)];
    assert a[1..] == [Number(10)] && b[1..] == [Number(9)];
    assert Compare([Number(10)], [Number(9)]) == Some(Greater);
    assert Compare([Number(9)], [Number(10)]) == Some(Less);
  }

  lemma OneDotComponents(d: string, n: nat)
    requires d == "10" || d == "9"
    requires n == DecimalValue(d)
    ensures Components("1." + d) == [Number(1), Number(n)]
  {
    DigitsComponent(d);
    assert DecimalValue("1") == 1 by {
      assert "1"[..0] == "";
    }
    assert "1." + d == "1" + "." + d;
    DigitsThenDot("1", d);
  }

  lemma TenAndNine()
    ensures DecimalValue("10") == 10 && DecimalValue("9") == 9
  {
    assert "10"[..1] == "1" && "1"[..0] == "";
    assert "9"[..0] == "";
  }

  /** A word facing a number is a TypeError in Python 3. */
  lemma WordAgainstNumber()
    ensures AtLeast("a", "1") == None
  {
    DigitsComponent("1");
    assert "1"[..0] == "";
    assert RunLength("a", Lower) == 1 by {
      assert "a"[1..] == "";
    }
    assert "a"[..1] == "a" && "a"[1..] == "";
  }
}

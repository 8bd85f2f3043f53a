/** The Python values a caller can hand to the figure: property values,
    style keywords, heatmap arguments. Only the behaviour of Python and
    numpy builtins that the figure relies on is modelled here: hashing for
    set membership, iteration and len(), float(), tuple() and the shape
    numpy gives to np.array(v). */
module PyValues {
  import opened Wrappers

  datatype Value =
    | VNone
    | VBool(b: bool)
    | VInt(i: int)
    | VReal(r: real)          // a finite float
    | VStr(s: string)
    | VList(items: seq<Value>)
    | VTuple(items: seq<Value>)

  /** Whether hash(v) succeeds: lists are unhashable, tuples are hashable
      when their items are. */
  predicate Hashable(v: Value) {
    match v
    case VList(_) => false
    case VTuple(items) => forall i :: 0 <= i < |items| ==> Hashable(items[i])
    case _ => true
  }

  /** Whether v has an __iter__ method (strings do). */
  predicate Iterable(v: Value) {
    v.VList? || v.VTuple? || v.VStr?
  }

  /** len(v) for an iterable value. */
  function Len(v: Value): nat
    requires Iterable(v)
  {
    match v
    case VStr(s) => |s|
    case VList(items) => |items|
    case VTuple(items) => |items|
  }

  /** The number a bool, int or float compares equal to under Python's ==
      (True == 1 == 1.0); None for every other value. */
  function Numeric(v: Value): (n: Option<real>)
    ensures n.Some? <==> v.VBool? || v.VInt? || v.VReal?
  {
    match v
    case VBool(b) => Some(if b then 1.0 else 0.0)
    case VInt(i) => Some(i as real)
    case VReal(r) => Some(r)
    case _ => None
  }

  predicate IsDigit(c: char) {
    '0' <= c <= '9'
  }

  predicate AllDigits(s: string) {
    forall i :: 0 <= i < |s| ==> IsDigit(s[i])
  }

  function DigitsValue(s: string): nat
    requires AllDigits(s)
  {
    if s == [] then 0
    else
      assert IsDigit(s[|s| - 1]);
      10 * DigitsValue(s[..|s| - 1]) + ((s[|s| - 1] as int) - ('0' as int))
  }

  function Pow10(n: nat): (p: nat)
    ensures p >= 1
  {
    if n == 0 then 1 else 10 * Pow10(n - 1)
  }

  /** Index of the first '.' in s, or |s| when there is none. */
  function DotIndex(s: string): (k: nat)
    ensures k <= |s|
    ensures k < |s| ==> s[k] == '.'
    ensures forall i :: 0 <= i < k ==> s[i] != '.'
  {
    if s == [] then 0
    else if s[0] == '.' then 0
    else 1 + DotIndex(s[1..])
  }

  /** The value of an unsigned decimal literal "ddd", "ddd.ddd", "ddd." or ".ddd". */
  function ParseUnsigned(s: string): Option<real> {
    var k := DotIndex(s);
    var whole := s[..k];
    var fraction := if k < |s| then s[k + 1..] else [];
    if |whole| + |fraction| == 0 then None
    else if !AllDigits(whole) || !AllDigits(fraction) then None
    else Some(DecimalValue(whole, fraction))
  }

  /** The number "w.f" spells: w + f / 10^|f|. */
  function DecimalValue(whole: string, fraction: string): real
    requires AllDigits(whole) && AllDigits(fraction)
  {
    DigitsValue(whole) as real + DigitsValue(fraction) as real / Pow10(|fraction|) as real
  }

  /** float(s) for a string s holding a signed decimal literal. */
  function ParseDecimal(s: string): Option<real> {
    if |s| > 0 && (s[0] == '-' || s[0] == '+') then
      match ParseUnsigned(s[1..])
      case Some(r) => Some(if s[0] == '-' then -r else r)
      case None => None
    else ParseUnsigned(s)
  }

  /** float(v): None when Python raises. */
  function ToFloat(v: Value): (f: Option<real>)
    ensures Numeric(v).Some? ==> f == Numeric(v)
    ensures f.Some? ==> v.VBool? || v.VInt? || v.VReal? || v.VStr?
  {
    match v
    case VStr(s) => ParseDecimal(s)
    case _ => Numeric(v)
  }

  /** float() of a string of decimal digits, with or without a sign, is the
      integer those digits spell. */
  lemma {:induction false} IntegerStringToFloat(digits: string)
    requires |digits| > 0 && AllDigits(digits)
    ensures ToFloat(VStr(digits)) == Some(DigitsValue(digits) as real)
    ensures ToFloat(VStr("+" + digits)) == Some(DigitsValue(digits) as real)
    ensures ToFloat(VStr("-" + digits)) == Some(-(DigitsValue(digits) as real))
  {
    var k := DotIndex(digits);
    assert digits[..k] == digits;
    assert ("+" + digits)[1..] == digits && ("-" + digits)[1..] == digits;
  }

  /** float() accepts a string only when it is made of decimal digits and
      points, after an optional leading sign. */
  lemma {:induction false} FloatStringCharacters(s: string)
    requires ToFloat(VStr(s)).Some?
    ensures |s| > 0
    ensures forall i :: 0 <= i < |s| ==> IsDigit(s[i]) || s[i] == '.' || (i == 0 && (s[i] == '+' || s[i] == '-'))
  {
    if |s| > 0 && (s[0] == '-' || s[0] == '+') {
      UnsignedCharacters(s[1..]);
      forall i | 0 < i < |s| ensures IsDigit(s[i]) || s[i] == '.' {
        assert s[i] == s[1..][i - 1];
      }
    } else {
      UnsignedCharacters(s);
    }
  }

  lemma UnsignedCharacters(s: string)
    requires ParseUnsigned(s).Some?
    ensures |s| > 0 && forall i :: 0 <= i < |s| ==> IsDigit(s[i]) || s[i] == '.'
  {
    var k := DotIndex(s);
    var whole := s[..k];
    var fraction := if k < |s| then s[k + 1..] else [];
    assert AllDigits(whole) && AllDigits(fraction);
    forall i | 0 <= i < |s| ensures IsDigit(s[i]) || s[i] == '.' {
      if i < k {
        assert s[i] == whole[i];
      } else if i > k {
        assert s[i] == fraction[i - k - 1];
      }
    }
  }

  /** float() of "w.f", with digit strings w and f not both empty, is
      w + f / 10^|f|. */
  lemma DecimalStringToFloat(whole: string, fraction: string)
    requires AllDigits(whole) && AllDigits(fraction) && |whole| + |fraction| > 0
    ensures ToFloat(VStr(whole + "." + fraction))
            == Some(DecimalValue(whole, fraction))
  {
    var s := whole + ("." + fraction);
    assert whole + "." + fraction == s;
    DotIndexAfterDigits(whole, "." + fraction);
    var k := |whole|;
    assert s[..k] == whole && s[k + 1..] == fraction;
    assert ParseUnsigned(s) == Some(DecimalValue(whole, fraction));
    assert s[0] != '-' && s[0] != '+' by {
      if |whole| > 0 { assert s[0] == whole[0]; } else { assert s[0] == '.'; }
    }
  }

  lemma {:induction false} DotIndexAfterDigits(w: string, t: string)
    requires AllDigits(w) && |t| > 0 && t[0] == '.'
    ensures DotIndex(w + t) == |w|
  {
    if w != [] {
      assert (w + t)[0] == w[0] && (w + t)[1..] == w[1..] + t;
      assert AllDigits(w[1..]) by {
        forall i | 0 <= i < |w| - 1 ensures IsDigit(w[1..][i]) { assert w[1..][i] == w[i + 1]; }
      }
      DotIndexAfterDigits(w[1..], t);
    } else {
      assert w + t == t;
    }
  }

  /** float('1.5') is 1.5, float('-2') is -2.0 and float('.25') is 0.25. */
  lemma FloatStringExamples()
    ensures ToFloat(VStr("1.5")) == Some(1.5)
    ensures ToFloat(VStr("-2")) == Some(-2.0)
    ensures ToFloat(VStr(".25")) == Some(0.25)
  {
    OneAndAHalf();
    MinusTwo();
    AQuarter();
  }

  lemma OneAndAHalf()
    ensures ToFloat(VStr("1.5")) == Some(1.5)
  {
    assert DigitsValue("1") == 1 && DigitsValue("5") == 5 by {
      assert "1"[..0] == "" && "5"[..0] == "";
    }
    assert DecimalValue("1", "5") == 1.5 by {
      assert Pow10(1) == 10;
    }
    DecimalStringToFloat("1", "5");
    assert "1" + "." + "5" == "1.5";
  }

  lemma MinusTwo()
    ensures ToFloat(VStr("-2")) == Some(-2.0)
  {
    assert DigitsValue("2") == 2 by {
      assert "2"[..0] == "";
    }
    IntegerStringToFloat("2");
    assert "-" + "2" == "-2";
  }

  lemma AQuarter()
    ensures ToFloat(VStr(".25")) == Some(0.25)
  {
    assert DigitsValue("25") == 25 by {
      assert "25"[..1] == "2" && "2"[..0] == "";
    }
    assert DecimalValue("", "25") == 0.25 by {
      assert Pow10(2) == 100;
    }
    DecimalStringToFloat("", "25");
    assert "" + "." + "25" == ".25";
  }

  /** float('.'), float('+'), float('1.2.3'), float('a') and float('') raise. */
  lemma FloatStringRejections()
    ensures ToFloat(VStr(".")) == None
    ensures ToFloat(VStr("+")) == None
    ensures ToFloat(VStr("1.2.3")) == None
    ensures ToFloat(VStr("a")) == None
    ensures ToFloat(VStr("")) == None
  {
    assert DotIndex(".") == 0;
    assert "+"[1..] == "";
    assert DotIndex("1.2.3") == 1 && "1.2.3"[2..] == "2.3" && !IsDigit("2.3"[1]);
    if ToFloat(VStr("a")).Some? {
      FloatStringCharacters("a");
    }
  }

  /** tuple(v): None when v is not iterable. A string yields its characters. */
  function ToTuple(v: Value): (t: Option<seq<Value>>)
    ensures t.Some? <==> Iterable(v)
    ensures t.Some? ==> |t.value| == Len(v)
    ensures v.VList? || v.VTuple? ==> t == Some(v.items)
    ensures v.VStr? ==> forall i :: 0 <= i < |v.s| ==> t.value[i] == VStr([v.s[i]])
  {
    match v
    case VList(items) => Some(items)
    case VTuple(items) => Some(items)
    case VStr(s) => Some(seq(|s|, i requires 0 <= i < |s| => VStr([s[i]])))
    case _ => None
  }

  /** The shape of np.array(v): a scalar (strings and None included) has
      shape (); a list or tuple prepends its length to the common shape of
      its items. None stands for a ragged nesting, for which np.array raises
      ValueError. */
  function ArrayShape(v: Value): (shape: Option<seq<nat>>)
    decreases v
    ensures shape.Some? && |shape.value| > 0 ==> (v.VList? || v.VTuple?) && shape.value[0] == |v.items|
    ensures !(v.VList? || v.VTuple?) ==> shape == Some([])
  {
    match v
    case VList(items) => ItemsShape(v, items)
    case VTuple(items) => ItemsShape(v, items)
    case _ => Some([])
  }

  function ItemsShape(v: Value, items: seq<Value>): (shape: Option<seq<nat>>)
    requires v.VList? || v.VTuple?
    requires items == v.items
    decreases v, 0
    ensures shape.Some? ==> |shape.value| > 0 && shape.value[0] == |items|
  {
    if |items| == 0 then Some([0])
    else
      var first := ArrayShape(items[0]);
      if first.Some? && forall i :: 0 <= i < |items| ==> ArrayShape(items[i]) == first
      then Some([|items|] + first.value)
      else None
  }
}

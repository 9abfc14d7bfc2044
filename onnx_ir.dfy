/** The target graph's records: nodes, attribute values, constant parameters and generated names. */
module OnnxIr {

  /** An attribute value of an ONNX node. */
  datatype AttrValue =
    | AInt(i: int)
    | AFloat(f: real)
    | AStr(s: string)
    | AInts(ints: seq<int>)
    | AFloats(floats: seq<real>)

  type Attributes = map<string, AttrValue>

  /** One ONNX node: `{op_type, inputs, outputs, attributes}`. */
  datatype Node = Node(opType: string, inputs: seq<string>, outputs: seq<string>, attrs: Attributes)

  /** The element type of a materialised constant. */
  datatype DType = Int64 | Float32

  /** A constant tensor added to the graph as an initializer; only its element type and its
      (integer-valued) elements are modelled. */
  datatype Parameter = Parameter(dtype: DType, data: seq<int>)

  /** The decimal digit for `d`. */
  function DigitChar(d: nat): (c: char)
    requires d < 10
    ensures '0' <= c <= '9'
  {
    ('0' as int + d) as char
  }

  /** The decimal representation of `n`, without leading zeros. */
  function Decimal(n: nat): (s: string)
    ensures |s| >= 1
    ensures forall k :: 0 <= k < |s| ==> '0' <= s[k] <= '9'
    decreases n
  {
    if n < 10 then [DigitChar(n)] else Decimal(n / 10) + [DigitChar(n % 10)]
  }

  /** Different numbers have different decimal representations. */
  lemma {:induction false} DecimalInjective(a: nat, b: nat)
    requires Decimal(a) == Decimal(b)
    ensures a == b
    decreases a
  {
    if a < 10 || b < 10 {
      // a one-digit representation equals only a one-digit one
    } else {
      var da, db := Decimal(a / 10), Decimal(b / 10);
      assert Decimal(a) == da + [DigitChar(a % 10)];
      assert Decimal(b) == db + [DigitChar(b % 10)];
      assert |da| == |db|;
      assert da == Decimal(a)[..|da|] == Decimal(b)[..|db|] == db;
      assert DigitChar(a % 10) == Decimal(a)[|da|] == Decimal(b)[|db|] == DigitChar(b % 10);
      DecimalInjective(a / 10, b / 10);
    }
  }

  /** The k-th intermediate name a graph builder generates. */
  function Gensym(k: nat): string {
    "t" + Decimal(k)
  }

  /** The k-th name the conversion context hands out. */
  function ContextName(k: nat): string {
    "v" + Decimal(k)
  }

  /** The names `Gensym(base)`, ..., `Gensym(base + count - 1)`, in that order. */
  function GensymRange(base: nat, count: nat): (names: seq<string>)
    ensures |names| == count
    ensures forall k :: 0 <= k < count ==> names[k] == Gensym(base + k)
  {
    seq(count, k requires 0 <= k < count => Gensym(base + k))
  }

  /** Generated intermediate names never repeat. */
  lemma GensymInjective(a: nat, b: nat)
    requires Gensym(a) == Gensym(b)
    ensures a == b
  {
    assert Decimal(a) == Gensym(a)[1..] == Gensym(b)[1..] == Decimal(b);
    DecimalInjective(a, b);
  }

  /** Context names never repeat. */
  lemma ContextNameInjective(a: nat, b: nat)
    requires ContextName(a) == ContextName(b)
    ensures a == b
  {
    assert Decimal(a) == ContextName(a)[1..] == ContextName(b)[1..] == Decimal(b);
    DecimalInjective(a, b);
  }

  /** An intermediate name is never a context name. */
  lemma GensymNotContextName(a: nat, b: nat)
    ensures Gensym(a) != ContextName(b)
  {
    assert Gensym(a)[0] == 't' && ContextName(b)[0] == 'v';
  }

  // Integer lists used as axis lists

  /** The integers lo, lo + 1, ..., hi - 1. */
  function Range(lo: int, hi: int): (r: seq<int>)
    requires lo <= hi
    ensures |r| == hi - lo && forall k :: 0 <= k < |r| ==> r[k] == lo + k
  {
    seq(hi - lo, k requires 0 <= k < hi - lo => lo + k)
  }

  predicate Increasing(xs: seq<int>) {
    forall a, b :: 0 <= a < b < |xs| ==> xs[a] < xs[b]
  }

  /** Appending a value above every element keeps a list increasing. */
  lemma AppendIncreasing(xs: seq<int>, y: int)
    requires Increasing(xs) && forall x :: x in xs ==> x < y
    ensures Increasing(xs + [y])
  {
    forall a, b | 0 <= a < b < |xs| + 1
      ensures (xs + [y])[a] < (xs + [y])[b]
    {
      if b == |xs| {
        assert xs[a] in xs;
      }
    }
  }
}

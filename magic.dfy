/** The two classes of the magic-method tutorial: `MagicMethodsExample`, a
    mutable record of a `name` and an `age` with keyed access, equality,
    ordering by age, `+` and `len`, and `DataProcessor`, a wrapper whose
    truth value and iteration come from its list. Python does not constrain
    the types of the fields, so a field holds `None`, an `int` or a `str`,
    and the operators raise `TypeError` where Python's would. */
module Magic {
  import opened Wrappers

  /** The values the examples store in a field. */
  datatype PyValue = PyNone | PyInt(i: int) | PyStr(s: string)

  // ---------------------------------------------------------------------------
  // Python's operators on field values
  // ---------------------------------------------------------------------------

  /** Python's `<` on two strings: code point by code point, and a proper
      prefix comes first. */
  predicate StrLess(a: string, b: string)
    decreases |a|
  {
    if |a| == 0 then |b| > 0
    else if |b| == 0 then false
    else if a[0] != b[0] then a[0] < b[0]
    else StrLess(a[1..], b[1..])
  }

  lemma {:induction false} StrLessIrreflexive(a: string)
    ensures !StrLess(a, a)
    decreases |a|
  {
    if |a| > 0 {
      StrLessIrreflexive(a[1..]);
    }
  }

  lemma {:induction false} StrLessTransitive(a: string, b: string, c: string)
    requires StrLess(a, b) && StrLess(b, c)
    ensures StrLess(a, c)
    decreases |a|
  {
    if |a| > 0 && a[0] == b[0] && b[0] == c[0] {
      StrLessTransitive(a[1..], b[1..], c[1..]);
    }
  }

  /** Any two distinct strings are ordered one way or the other. */
  lemma {:induction false} StrLessTotal(a: string, b: string)
    requires a != b
    ensures StrLess(a, b) || StrLess(b, a)
    decreases |a|
  {
    if |a| > 0 && |b| > 0 && a[0] == b[0] {
      assert a == [a[0]] + a[1..] && b == [b[0]] + b[1..];
      StrLessTotal(a[1..], b[1..]);
    }
  }

  /** Python's `a < b`: numbers by value, strings in code-point order, and a
      `TypeError` for `None` or for a number against a string. */
  function Less(a: PyValue, b: PyValue): (r: Result<bool, PyError>)
    ensures r.Ok? <==> (a.PyInt? && b.PyInt?) || (a.PyStr? && b.PyStr?)
    ensures r.Err? ==> r.error == TypeError
  {
    match (a, b)
    case (PyInt(x), PyInt(y)) => Ok(x < y)
    case (PyStr(x), PyStr(y)) => Ok(StrLess(x, y))
    case _ => Err(TypeError)
  }

  /** `<` is a strict order wherever it is defined: never `v < v`, and
      `a < b < c` gives `a < c`. */
  lemma LessStrictOrder(a: PyValue, b: PyValue, c: PyValue)
    ensures Less(a, a) != Ok(true)
    ensures Less(a, b) == Ok(true) && Less(b, c) == Ok(true) ==> Less(a, c) == Ok(true)
  {
    if a.PyStr? {
      StrLessIrreflexive(a.s);
      if a.PyStr? && b.PyStr? && c.PyStr? && StrLess(a.s, b.s) && StrLess(b.s, c.s) {
        StrLessTransitive(a.s, b.s, c.s);
      }
    }
  }

  /** Two different values of the same type are always ordered one way or
      the other. */
  lemma LessTotal(a: PyValue, b: PyValue)
    requires Less(a, b).Ok? && a != b
    ensures Less(a, b) == Ok(true) || Less(b, a) == Ok(true)
  {
    if a.PyStr? {
      StrLessTotal(a.s, b.s);
    }
  }

  /** Python's `a + b`: the sum of two numbers, the concatenation of two
      strings, and a `TypeError` otherwise. */
  function Plus(a: PyValue, b: PyValue): (r: Result<PyValue, PyError>)
    ensures r.Ok? <==> (a.PyInt? && b.PyInt?) || (a.PyStr? && b.PyStr?)
    ensures r.Err? ==> r.error == TypeError
    ensures a.PyStr? && b.PyStr? ==>
              r.value.PyStr? && |r.value.s| == |a.s| + |b.s|
              && r.value.s[..|a.s|] == a.s && r.value.s[|a.s|..] == b.s
  {
    match (a, b)
    case (PyInt(x), PyInt(y)) => Ok(PyInt(x + y))
    case (PyStr(x), PyStr(y)) => Ok(PyStr(x + y))
    case _ => Err(TypeError)
  }

  /** `+` on numbers is the sum, and commutative. */
  lemma PlusOnNumbers(x: int, y: int)
    ensures Plus(PyInt(x), PyInt(y)) == Plus(PyInt(y), PyInt(x))
    ensures Plus(PyInt(x), PyInt(y)).value.i == x + y
  {
  }

  /** On strings `+` is concatenation, which is not commutative. */
  lemma PlusOnStringsNotCommutative()
    ensures Plus(PyStr("a"), PyStr("b")) != Plus(PyStr("b"), PyStr("a"))
  {
    assert Plus(PyStr("a"), PyStr("b")).value.s[0] == 'a';
  }

  /** Python's `len(v)`: the number of characters of a string; numbers and
      `None` have no length. */
  function Length(v: PyValue): (r: Result<int, PyError>)
    ensures r.Ok? <==> v.PyStr?
    ensures r.Ok? ==> r.value == |v.s| && r.value >= 0
    ensures r.Err? ==> r.error == TypeError
  {
    if v.PyStr? then Ok(|v.s|) else Err(TypeError)
  }

  // ---------------------------------------------------------------------------
  // MagicMethodsExample
  // ---------------------------------------------------------------------------

  class MagicMethodsExample {
    var name: PyValue
    var age: PyValue

    /** `__init__(name, age)` */
    constructor (name: PyValue, age: PyValue)
      ensures this.name == name && this.age == age
    {
      this.name := name;
      this.age := age;
    }

    /** `obj[key]`: the field named by the key, and `None` for any other key. */
    function GetItem(key: PyValue): (r: PyValue)
      reads this
      ensures key == PyStr("name") ==> r == name
      ensures key == PyStr("age") ==> r == age
      ensures key != PyStr("name") && key != PyStr("age") ==> r == PyNone
    {
      if key == PyStr("name") then name
      else if key == PyStr("age") then age
      else PyNone
    }

    /** `obj[key] = value`: the field named by the key takes the value, and
        any other key changes nothing. Seen through `obj[k]`, the assigned
        key reads back the value and every other key reads as before. */
    method SetItem(key: PyValue, value: PyValue)
      modifies this`name, this`age
      ensures key == PyStr("name") ==> name == value && age == old(age)
      ensures key == PyStr("age") ==> age == value && name == old(name)
      ensures key != PyStr("name") && key != PyStr("age") ==> name == old(name) && age == old(age)
      ensures key == PyStr("name") || key == PyStr("age") ==> GetItem(key) == value
      ensures forall k :: k != key ==> GetItem(k) == old(GetItem(k))
    {
      if key == PyStr("name") {
        name := value;
      } else if key == PyStr("age") {
        age := value;
      }
    }

    /** `self == other`: both fields equal. */
    predicate Eq(other: MagicMethodsExample)
      reads this, other
    {
      name == other.name && age == other.age
    }

    /** `self < other`: the ages compared, names ignored. */
    function Lt(other: MagicMethodsExample): (r: Result<bool, PyError>)
      reads this, other
    {
      Less(age, other.age)
    }

    /** `self + other`: the ages added. */
    function Add(other: MagicMethodsExample): (r: Result<PyValue, PyError>)
      reads this, other
    {
      Plus(age, other.age)
    }

    /** `len(self)`: the length of the name. */
    function Len(): (r: Result<int, PyError>)
      reads this
    {
      Length(name)
    }

    /** `__enter__`: the object itself is bound by `with ... as` (the
        greeting it prints is output and left out). */
    method Enter() returns (r: MagicMethodsExample)
      ensures r == this
    {
      r := this;
    }
  }

  /** `==` holds exactly when every key reads the same on both objects. */
  lemma EqIffSameItems(a: MagicMethodsExample, b: MagicMethodsExample)
    ensures a.Eq(b) <==> forall k :: a.GetItem(k) == b.GetItem(k)
  {
    if forall k :: a.GetItem(k) == b.GetItem(k) {
      assert a.GetItem(PyStr("name")) == b.GetItem(PyStr("name"));
      assert a.GetItem(PyStr("age")) == b.GetItem(PyStr("age"));
    }
  }

  /** `==` is reflexive, symmetric and transitive. */
  lemma EqEquivalence(a: MagicMethodsExample, b: MagicMethodsExample, c: MagicMethodsExample)
    ensures a.Eq(a)
    ensures a.Eq(b) ==> b.Eq(a)
    ensures a.Eq(b) && b.Eq(c) ==> a.Eq(c)
  {
  }

  /** `<` is irreflexive and transitive, and only the ages take part in it. */
  lemma LtOrdersByAge(a: MagicMethodsExample, b: MagicMethodsExample, c: MagicMethodsExample)
    ensures a.Lt(a) != Ok(true)
    ensures a.Lt(b) == Ok(true) && b.Lt(c) == Ok(true) ==> a.Lt(c) == Ok(true)
    ensures a.age == c.age ==> a.Lt(b) == c.Lt(b) && b.Lt(a) == b.Lt(c)
  {
    LessStrictOrder(a.age, b.age, c.age);
  }

  /** With numeric ages, `a + b` is the sum of the ages and `a + b == b + a`. */
  lemma AddSumsAges(a: MagicMethodsExample, b: MagicMethodsExample)
    requires a.age.PyInt? && b.age.PyInt?
    ensures a.Add(b) == Ok(PyInt(a.age.i + b.age.i))
    ensures a.Add(b) == b.Add(a)
  {
    PlusOnNumbers(a.age.i, b.age.i);
  }

  /** `len(obj)` is the length of the name, and a name without a length
      makes it raise. */
  lemma LenIsNameLength(a: MagicMethodsExample)
    ensures a.name.PyStr? ==> a.Len() == Ok(|a.name.s|)
    ensures !a.name.PyStr? ==> a.Len() == Err(TypeError)
  {
  }

  // ---------------------------------------------------------------------------
  // DataProcessor
  // ---------------------------------------------------------------------------

  /** The iterator `iter(list)` returns: the list and a position in it. */
  class ListIterator<T> {
    const items: seq<T>
    var index: nat

    ghost predicate Valid()
      reads this
    {
      index <= |items|
    }

    constructor (items: seq<T>)
      ensures this.items == items && index == 0 && Valid()
    {
      this.items := items;
      index := 0;
    }

    /** `next(it)`: the next element, or `None` (StopIteration) at the end. */
    method Next() returns (r: Option<T>)
      requires Valid()
      modifies this`index
      ensures Valid()
      ensures old(index) < |items| ==> r == Some(items[old(index)]) && index == old(index) + 1
      ensures old(index) == |items| ==> r.None? && index == old(index)
    {
      if index < |items| {
        r := Some(items[index]);
        index := index + 1;
      } else {
        r := None;
      }
    }
  }

  class DataProcessor<T> {
    var data: seq<T>

    /** `__init__(data)` */
    constructor (data: seq<T>)
      ensures this.data == data
    {
      this.data := data;
    }

    /** `bool(processor)`: true exactly when the data is non-empty. */
    predicate Bool()
      reads this
    {
      |data| > 0
    }

    /** `iter(processor)`: a fresh iterator at the start of the data. */
    method Iter() returns (it: ListIterator<T>)
      ensures fresh(it) && it.items == data && it.index == 0 && it.Valid()
    {
      it := new ListIterator(data);
    }
  }

  /** `if processor: for item in processor: print(item)`, with each printed
      item collected in order: every element of the data, in order, and
      something is printed exactly when the processor is truthy. */
  method PrintItems<T>(processor: DataProcessor<T>) returns (printed: seq<T>)
    ensures printed == processor.data
    ensures |printed| > 0 <==> processor.Bool()
  {
    printed := [];
    if processor.Bool() {
      var it := processor.Iter();
      var item := it.Next();
      while item.Some?
        invariant it.Valid() && it.items == processor.data
        invariant item.Some? ==> 0 < it.index && item.value == it.items[it.index - 1]
        invariant item.Some? ==> printed == it.items[..it.index - 1]
        invariant item.None? ==> printed == it.items
        decreases |it.items| - it.index + (if item.Some? then 1 else 0)
      {
        printed := printed + [item.value];
        assert it.items[..it.index] == it.items[..it.index - 1] + [item.value];
        var wasEnd := it.index == |it.items|;
        item := it.Next();
        if wasEnd {
          assert it.items[..it.index] == it.items;
        }
      }
    }
  }
}

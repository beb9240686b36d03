/**
 * JSON values as the browser's `JSON.parse` hands them to the program, and
 * an abstract measure of how much room a value takes in storage.
 */
module Json {
  import opened Wrappers

  /** A parsed JSON value. Numbers are modelled as integers. */
  datatype Raw =
    | Null
    | Bool(b: bool)
    | Num(n: int)
    | Str(s: string)
    | Array(items: seq<Raw>)
    | Object(fields: seq<Field>)

  /** One member of an object, in textual order; later duplicates win. */
  datatype Field = Field(key: string, value: Raw)

  /** The value of `key` in an object's members: JSON.parse keeps the last one. */
  function Get(fs: seq<Field>, key: string): (r: Option<Raw>)
    ensures r.None? <==> forall i :: 0 <= i < |fs| ==> fs[i].key != key
    ensures r.Some? ==> exists i :: 0 <= i < |fs| && fs[i].key == key && fs[i].value == r.value
                                    && forall j :: i < j < |fs| ==> fs[j].key != key
  {
    if fs == [] then None
    else if fs[|fs| - 1].key == key then Some(fs[|fs| - 1].value)
    else Get(fs[..|fs| - 1], key)
  }

  /** Property access `v.key` on a non-null value: only objects have members here. */
  function Prop(v: Raw, key: string): Option<Raw>
  {
    if v.Object? then Get(v.fields, key) else None
  }

  /** JavaScript truthiness of a JSON value. */
  predicate Truthy(v: Raw): (t: bool)
    ensures !t <==> v in {Null, Bool(false), Num(0), Str("")}
  {
    match v
    case Null => false
    case Bool(b) => b
    case Num(n) => n != 0
    case Str(s) => s != ""
    case Array(_) => true
    case Object(_) => true
  }

  /**
   * The room a value takes in storage. It stands for the length of the
   * serialised text; the empty array has size 1.
   */
  function Size(v: Raw): (n: nat)
    ensures n >= 1
  {
    match v
    case Null => 1
    case Bool(_) => 1
    case Num(_) => 1
    case Str(s) => |s| + 1
    case Array(xs) => 1 + ItemsSize(xs)
    case Object(fs) => 1 + FieldsSize(fs)
  }

  function ItemsSize(xs: seq<Raw>): nat
  {
    if xs == [] then 0 else ItemsSize(xs[..|xs| - 1]) + Size(xs[|xs| - 1])
  }

  function FieldsSize(fs: seq<Field>): nat
  {
    if fs == [] then 0
    else FieldsSize(fs[..|fs| - 1]) + |fs[|fs| - 1].key| + Size(fs[|fs| - 1].value)
  }

  /** Dropping trailing elements of an array never makes it larger. */
  lemma {:induction false} ItemsSizePrefix(xs: seq<Raw>, k: nat)
    requires k <= |xs|
    ensures ItemsSize(xs[..k]) <= ItemsSize(xs)
    decreases |xs| - k
  {
    if k < |xs| {
      var ys := xs[..|xs| - 1];
      assert ys[..k] == xs[..k];
      ItemsSizePrefix(ys, k);
    } else {
      assert xs[..k] == xs;
    }
  }
}

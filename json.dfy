/** JSON documents as the pipeline's Python code sees them after `json.load`:
    dicts, lists, strings, numbers, booleans and None, together with the few
    dynamically typed operations the stages apply to them (`d[k]`, `d.get`,
    `k in d`, iteration, slicing, truthiness and `str()`). */
module JsonDoc {
  import opened Base
  import opened Text

  datatype Json =
    | Null
    | Bool(b: bool)
    | Int(i: int)
    | Float(r: real)
    | Str(s: string)
    | Arr(items: seq<Json>)
    | Obj(fields: seq<Field>)   // a dict, in insertion order

  datatype Field = Field(key: string, value: Json)

  /** Python truthiness. */
  predicate Truthy(j: Json) {
    match j
    case Null => false
    case Bool(b) => b
    case Int(i) => i != 0
    case Float(r) => r != 0.0
    case Str(s) => s != ""
    case Arr(xs) => xs != []
    case Obj(fs) => fs != []
  }

  predicate HasKey(fs: seq<Field>, k: string) {
    exists i :: 0 <= i < |fs| && fs[i].key == k
  }

  /** The value stored under `k`: the first field with that key. */
  function Find(fs: seq<Field>, k: string): (r: Option<Json>)
    ensures r.None? <==> !HasKey(fs, k)
    ensures r.Some? ==> Field(k, r.value) in fs
  {
    FindFrom(fs, k, 0)
  }

  /** The first field with key `k` at position `i` or later. */
  function FindFrom(fs: seq<Field>, k: string, i: nat): (r: Option<Json>)
    ensures r.None? <==> forall j :: i <= j < |fs| ==> fs[j].key != k
    ensures r.Some? ==> Field(k, r.value) in fs
    decreases |fs| - i
  {
    if i >= |fs| then None
    else if fs[i].key == k then Some(fs[i].value)
    else FindFrom(fs, k, i + 1)
  }

  /** `d[k]` for a string key. */
  function Index(d: Json, k: string): (r: Result<Json>)
    ensures r.Ok? <==> d.Obj? && HasKey(d.fields, k)
    ensures d.Obj? && !HasKey(d.fields, k) ==> r == Err(KeyError(k))
  {
    match d
    case Obj(fs) => (match Find(fs, k) case Some(v) => Ok(v) case None => Err(KeyError(k)))
    case _ => Err(TypeError)
  }

  /** `d.get(k, default)`. */
  function Get(d: Json, k: string, default: Json): (r: Result<Json>)
    ensures r.Ok? <==> d.Obj?
    ensures d.Obj? && !HasKey(d.fields, k) ==> r == Ok(default)
  {
    match d
    case Obj(fs) => (match Find(fs, k) case Some(v) => Ok(v) case None => Ok(default))
    case _ => Err(AttributeError)
  }

  /** `k in d` for a string `k`: key membership for a dict, element
      membership for a list, substring for a string. */
  function Contains(d: Json, k: string): (r: Result<bool>)
    ensures d.Obj? ==> r == Ok(HasKey(d.fields, k))
    ensures d.Str? ==> r == Ok(Occurs(k, d.s))
    ensures r.Err? <==> !(d.Obj? || d.Arr? || d.Str?)
  {
    match d
    case Obj(fs) => Ok(HasKey(fs, k))
    case Arr(xs) => Ok(Str(k) in xs)
    case Str(s) => Ok(Occurs(k, s))
    case _ => Err(TypeError)
  }

  /** What `for x in d` visits: a list's items, a dict's keys, a string's
      characters. */
  function Elements(d: Json): (r: Result<seq<Json>>)
    ensures r.Err? <==> !(d.Obj? || d.Arr? || d.Str?)
    ensures d.Arr? ==> r == Ok(d.items)
    ensures r.Ok? ==> (|r.value| == 0 <==> !Truthy(d))
  {
    match d
    case Arr(xs) => Ok(xs)
    case Obj(fs) => Ok(seq(|fs|, i requires 0 <= i < |fs| => Str(fs[i].key)))
    case Str(s) => Ok(seq(|s|, i requires 0 <= i < |s| => Str([s[i]])))
    case _ => Err(TypeError)
  }

  /** `d[:n]` for a list or a string. */
  function Head(d: Json, n: nat): (r: Result<Json>)
    ensures d.Arr? ==> r.Ok? && r.value.Arr? && r.value.items == d.items[..if n < |d.items| then n else |d.items|]
    ensures d.Str? ==> r.Ok? && r.value.Str? && r.value.s == d.s[..if n < |d.s| then n else |d.s|]
    ensures r.Err? <==> !(d.Arr? || d.Str?)
  {
    match d
    case Arr(xs) => Ok(Arr(if n < |xs| then xs[..n] else xs))
    case Str(s) => Ok(Str(if n < |s| then s[..n] else s))
    case _ => Err(TypeError)
  }

  /** Python's `str(x)`, as an f-string renders a value. */
  function Display(j: Json): string
    decreases j, 1
  {
    match j
    case Str(s) => s
    case _ => Repr(j)
  }

  /** Python's `repr(x)`. A float is rendered by its sign and value class
      only, and a string inside a container is always put between single
      quotes. */
  function Repr(j: Json): string
    decreases j, 0
  {
    match j
    case Null => "None"
    case Bool(b) => if b then "True" else "False"
    case Int(i) => IntToString(i)
    case Float(r) => if r == 0.0 then "0.0" else "<float>"
    case Str(s) => "'" + s + "'"
    case Arr(xs) => "[" + Join(seq(|xs|, i requires 0 <= i < |xs| => Repr(xs[i])), ", ") + "]"
    case Obj(fs) => "{" + Join(seq(|fs|, i requires 0 <= i < |fs| => "'" + fs[i].key + "': " + Repr(fs[i].value)), ", ") + "}"
  }

  /** Looking up a key finds its first field: in a dict literal with
      distinct keys, the value the literal put there. */
  lemma FindFirst(fs: seq<Field>, i: nat)
    requires i < |fs| && forall j :: 0 <= j < i ==> fs[j].key != fs[i].key
    ensures Find(fs, fs[i].key) == Some(fs[i].value)
  {
    FindFromSkips(fs, fs[i].key, 0, i);
  }

  lemma {:induction false} FindFromSkips(fs: seq<Field>, k: string, from: nat, i: nat)
    requires from <= i < |fs| && fs[i].key == k && forall j :: from <= j < i ==> fs[j].key != k
    ensures FindFrom(fs, k, from) == Some(fs[i].value)
    decreases i - from
  {
    if from < i {
      FindFromSkips(fs, k, from + 1, i);
    }
  }
}

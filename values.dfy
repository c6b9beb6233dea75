/** The Python values that cross the servers' remote boundaries: JSON-like dicts, lists and scalars,
    with the subscripting and `str.split` behaviour the handlers rely on. */
module PyValues {
  import opened Wrappers

  /** A Python value as found in a request payload or a remote response. */
  datatype Value =
    | Null
    | Bool(b: bool)
    | Int(i: int)
    | Float(f: real)
    | Str(s: string)
    | List(items: seq<Value>)
    | Dict(fields: map<string, Value>)

  /** The name Python's `type(v).__name__` gives. */
  function TypeName(v: Value): string
  {
    match v
    case Null => "NoneType"
    case Bool(_) => "bool"
    case Int(_) => "int"
    case Float(_) => "float"
    case Str(_) => "str"
    case List(_) => "list"
    case Dict(_) => "dict"
  }

  /** `str(KeyError(key))` for a string key without quotes or backslashes, such as every key the servers
      read ("images", "url", "document_title", "content_text", "@search.reranker_score"): the key in single
      quotes. A key holding a quote or backslash has a different repr, which is not modelled. */
  function KeyErrorMessage(key: string): string
  {
    "'" + key + "'"
  }

  const IndexOutOfRange: string := "list index out of range"

  /** `v[key]` for a string key, or the message of the exception Python raises. */
  function GetItem(v: Value, key: string): (r: Result<Value>)
    ensures r.Ok? <==> v.Dict? && key in v.fields
    ensures r.Ok? ==> r.value == v.fields[key]
    ensures v.Dict? && key !in v.fields ==> r == Err(KeyErrorMessage(key))
  {
    match v
    case Dict(m) => if key in m then Ok(m[key]) else Err(KeyErrorMessage(key))
    case List(_) => Err("list indices must be integers or slices, not str")
    case Str(_) => Err("string indices must be integers, not 'str'")
    case _ => Err("'" + TypeName(v) + "' object is not subscriptable")
  }

  /** `v[0]`, or the message of the exception Python raises. */
  function GetFirst(v: Value): (r: Result<Value>)
    ensures v.List? ==> (r.Ok? <==> |v.items| > 0)
    ensures v.List? && |v.items| > 0 ==> r == Ok(v.items[0])
    ensures v.List? && |v.items| == 0 ==> r == Err(IndexOutOfRange)
  {
    match v
    case List(xs) => if |xs| > 0 then Ok(xs[0]) else Err(IndexOutOfRange)
    case Str(s) => if |s| > 0 then Ok(Str([s[0]])) else Err("string index out of range")
    // a dict has string keys only, so the integer key 0 is never present
    case Dict(_) => Err("0")
    case _ => Err("'" + TypeName(v) + "' object is not subscriptable")
  }

  /** Python's `s.split(sep)` for a one-character separator: the maximal
      separator-free pieces, in order; an empty string gives `[""]`. */
  function Split(s: string, sep: char): (parts: seq<string>)
    ensures |parts| >= 1
    ensures forall k :: 0 <= k < |parts| ==> sep !in parts[k]
    decreases |s|
  {
    if |s| == 0 then [""]
    else
      var rest := Split(s[1..], sep);
      if s[0] == sep then [""] + rest
      else [[s[0]] + rest[0]] + rest[1..]
  }

  /** The inverse of `Split`: `sep.join(parts)`. */
  function Join(parts: seq<string>, sep: char): string
    requires |parts| >= 1
    decreases |parts|
  {
    if |parts| == 1 then parts[0] else parts[0] + [sep] + Join(parts[1..], sep)
  }

  /** Joining the pieces gives the string back, and no piece holds the separator. */
  lemma {:induction false} SplitJoin(s: string, sep: char)
    ensures Join(Split(s, sep), sep) == s
    ensures forall k :: 0 <= k < |Split(s, sep)| ==> sep !in Split(s, sep)[k]
    decreases |s|
  {
    if |s| > 0 {
      SplitJoin(s[1..], sep);
      var rest := Split(s[1..], sep);
      if s[0] == sep {
        assert Split(s, sep)[1..] == rest;
      } else {
        var parts := Split(s, sep);
        assert parts[0] == [s[0]] + rest[0];
        if |rest| > 1 {
          assert parts[1..] == rest[1..];
          assert Join(parts, sep) == [s[0]] + rest[0] + [sep] + Join(rest[1..], sep);
        }
        assert s == [s[0]] + s[1..];
        forall k | 0 <= k < |parts| ensures sep !in parts[k] {
          if k > 0 { assert parts[k] == rest[k]; }
        }
      }
    }
  }

  /** A separator-free string splits into itself alone. */
  lemma {:induction false} SplitNoSeparator(s: string, sep: char)
    requires sep !in s
    ensures Split(s, sep) == [s]
    decreases |s|
  {
    if |s| > 0 {
      SplitNoSeparator(s[1..], sep);
      assert s == [s[0]] + s[1..];
    }
  }

  /** Splitting at a first separator: the text before it is the first piece. */
  lemma {:induction false} SplitAtFirst(a: string, sep: char, b: string)
    requires sep !in a
    ensures Split(a + [sep] + b, sep) == [a] + Split(b, sep)
    decreases |a|
  {
    if |a| == 0 {
      assert a + [sep] + b == [sep] + b;
      assert ([sep] + b)[1..] == b;
    } else {
      var s := a + [sep] + b;
      assert s[1..] == a[1..] + [sep] + b;
      SplitAtFirst(a[1..], sep, b);
      assert [a[0]] + a[1..] == a;
    }
  }
}

/** JavaScript values as the remote-control bridge sees them: JSON-like data
    parsed from a request, the instance graphs of engine runtimes, and opaque
    functions. Only own properties of plain objects are modelled. */
module Js {

  datatype Option<T> = None | Some(value: T)

  /** A JavaScript value. Numbers are integers here; a function is an opaque
      identity (what it does when called is outside the model). */
  datatype Value =
    | Undefined
    | Null
    | Bool(b: bool)
    | Num(n: int)
    | Str(s: string)
    | Func(fn: nat)
    | Arr(items: seq<Value>)
    | Obj(props: map<string, Value>)

  /** JavaScript truthiness: `undefined`, `null`, `false`, `0` and `""` are falsy,
      every object, array and function is truthy. */
  predicate Truthy(v: Value) {
    match v
    case Undefined => false
    case Null => false
    case Bool(b) => b
    case Num(n) => n != 0
    case Str(s) => s != ""
    case _ => true
  }

  /** `v[key]`: an own property of a plain object, `undefined` otherwise. */
  function Get(v: Value, key: string): Value {
    if v.Obj? && key in v.props then v.props[key] else Undefined
  }

  /** Reading a truthy property is only possible on a plain object that owns it. */
  lemma TruthyGetIsOwn(v: Value, key: string)
    requires Truthy(Get(v, key))
    ensures v.Obj? && key in v.props
  {
  }

  /** `v[k0][k1]...`: the value reached by reading the keys one after another. */
  function Lookup(v: Value, keys: seq<string>): Value
    decreases |keys|
  {
    if keys == [] then v else Lookup(Get(v, keys[0]), keys[1..])
  }

  lemma {:induction false} LookupAppend(v: Value, keys: seq<string>, key: string)
    ensures Lookup(v, keys + [key]) == Get(Lookup(v, keys), key)
    decreases |keys|
  {
    if keys != [] {
      assert (keys + [key])[1..] == keys[1..] + [key];
      LookupAppend(Get(v, keys[0]), keys[1..], key);
    }
  }

  /** `String(i)` for an array index: its decimal digits, without leading
      zeros. */
  function IndexKey(i: nat): (key: string)
    ensures key != [] && Digits(key)
    decreases i
  {
    if i < 10 then [DigitChar(i)] else IndexKey(i / 10) + [DigitChar(i % 10)]
  }

  function DigitChar(d: nat): (c: char)
    requires d < 10
    ensures '0' <= c <= '9' && c as int - '0' as int == d
  {
    ('0' as int + d) as char
  }

  predicate Digits(s: string) {
    forall i :: 0 <= i < |s| ==> '0' <= s[i] <= '9'
  }

  /** The number a string of decimal digits denotes. */
  function DecimalValue(s: string): nat
    requires Digits(s)
    decreases |s|
  {
    if s == [] then 0
    else
      DecimalValue(s[..|s| - 1]) * 10 + (s[|s| - 1] as int - '0' as int)
  }

  /** Reading an index key back as a number gives the index: distinct indices
      name distinct properties. */
  lemma {:induction false} IndexKeyRoundTrip(i: nat)
    ensures DecimalValue(IndexKey(i)) == i
    decreases i
  {
    if i >= 10 {
      IndexKeyRoundTrip(i / 10);
      var key := IndexKey(i);
      assert key[..|key| - 1] == IndexKey(i / 10);
    }
  }

  /** `ToLength(ToNumber(v))` for the values a `length` property can hold in
      this model: `undefined` and `null` give 0, a boolean 0 or 1, a number
      itself when not negative. Strings and objects are taken as 0. */
  function LengthOf(v: Value): nat {
    match v
    case Bool(b) => if b then 1 else 0
    case Num(n) => if n < 0 then 0 else n
    case _ => 0
  }

  /** `s.split(sep)` with a one-character separator: the pieces of `s` between
      occurrences of `sep`, empty pieces included. */
  function Split(s: string, sep: char): (r: seq<string>)
    ensures |r| >= 1
    ensures forall i :: 0 <= i < |r| ==> sep !in r[i]
    decreases |s|
  {
    if s == [] then [""]
    else
      var rest := Split(s[1..], sep);
      if s[0] == sep then [""] + rest
      else [[s[0]] + rest[0]] + rest[1..]
  }

  /** `parts.join(sep)`: the inverse of Split. */
  function Join(parts: seq<string>, sep: char): string
    requires |parts| >= 1
    decreases |parts|
  {
    if |parts| == 1 then parts[0] else parts[0] + [sep] + Join(parts[1..], sep)
  }

  /** Splitting and joining again gives back the original string. */
  lemma {:induction false} JoinSplit(s: string, sep: char)
    ensures Join(Split(s, sep), sep) == s
    decreases |s|
  {
    if s != [] {
      var rest := Split(s[1..], sep);
      JoinSplit(s[1..], sep);
      if s[0] == sep {
        assert ([""] + rest)[1..] == rest;
      } else {
        var r := [[s[0]] + rest[0]] + rest[1..];
        if |rest| == 1 {
          assert s == [s[0]] + s[1..];
          assert r == [s];
        } else {
          assert r[1..] == rest[1..];
          assert Join(rest, sep) == rest[0] + [sep] + Join(rest[1..], sep);
        }
      }
    }
  }

  /** Joining pieces that contain no separator and splitting again gives back
      the pieces: splitting loses nothing. */
  lemma {:induction false} SplitJoin(parts: seq<string>, sep: char)
    requires |parts| >= 1
    requires forall i :: 0 <= i < |parts| ==> sep !in parts[i]
    ensures Split(Join(parts, sep), sep) == parts
    decreases |parts|, |parts[0]|
  {
    if |parts| == 1 {
      SplitNoSep(parts[0], sep);
    } else if parts[0] == "" {
      SplitJoin(parts[1..], sep);
      assert Join(parts, sep) == [sep] + Join(parts[1..], sep);
      assert ([sep] + Join(parts[1..], sep))[1..] == Join(parts[1..], sep);
      assert [""] + parts[1..] == parts;
    } else {
      var shorter := [parts[0][1..]] + parts[1..];
      SplitJoin(shorter, sep);
      SplitJoinHead(parts, shorter, sep);
    }
  }

  /** The step of SplitJoin that moves the first character of a non-empty
      first piece back in front. */
  lemma SplitJoinHead(parts: seq<string>, shorter: seq<string>, sep: char)
    requires |parts| >= 2 && parts[0] != "" && sep !in parts[0]
    requires shorter == [parts[0][1..]] + parts[1..]
    requires Split(Join(shorter, sep), sep) == shorter
    ensures Split(Join(parts, sep), sep) == parts
  {
    var p := parts[0];
    JoinHead(parts, shorter, sep);
    SplitHead(p[0], Join(shorter, sep), sep);
    assert p == [p[0]] + p[1..];
    assert shorter[1..] == parts[1..];
    assert parts == [p] + parts[1..];
  }

  /** Joining moves the first character of the first piece to the front. */
  lemma JoinHead(parts: seq<string>, shorter: seq<string>, sep: char)
    requires |parts| >= 2 && parts[0] != ""
    requires shorter == [parts[0][1..]] + parts[1..]
    ensures Join(parts, sep) == [parts[0][0]] + Join(shorter, sep)
  {
    var p := parts[0];
    var tail := [sep] + Join(parts[1..], sep);
    assert shorter[1..] == parts[1..];
    assert Join(shorter, sep) == p[1..] + tail;
    assert p == [p[0]] + p[1..];
  }

  /** Splitting a string that starts with a non-separator adds that
      character to the front of the first piece. */
  lemma SplitHead(c: char, t: string, sep: char)
    requires c != sep
    ensures Split([c] + t, sep) == [[c] + Split(t, sep)[0]] + Split(t, sep)[1..]
  {
    assert ([c] + t)[1..] == t;
  }

  lemma {:induction false} SplitNoSep(s: string, sep: char)
    requires sep !in s
    ensures Split(s, sep) == [s]
    decreases |s|
  {
    if s != [] {
      SplitNoSep(s[1..], sep);
      assert [s[0]] + s[1..] == s;
    }
  }
}

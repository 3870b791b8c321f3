/**
 * The slice of Python semantics that the authorization gate and the request
 * handlers rely on: JSON values as `json.loads` produces them, truthiness,
 * `==`, the `in` operator, `str.split(' ')` and `str.lower()`.
 */
module PyValues {

  datatype Option<+T> = None | Some(value: T)

  /** A decoded JSON value (JSON numbers are modelled as integers only). */
  datatype Value =
    | Null
    | Bool(b: bool)
    | Num(n: int)
    | Str(s: string)
    | Arr(items: seq<Value>)
    | Obj(fields: map<string, Value>)

  /** Python's `bool(v)`: None, False, 0, '', [] and {} are falsy. */
  predicate Truthy(v: Value) {
    match v
    case Null => false
    case Bool(b) => b
    case Num(n) => n != 0
    case Str(s) => s != ""
    case Arr(xs) => xs != []
    case Obj(m) => m != map[]
  }

  /** Python's `==` on decoded JSON; `True == 1` and `False == 0` hold in Python. */
  predicate PyEq(a: Value, b: Value)
    decreases a
  {
    match a
    case Null => b.Null?
    case Bool(x) => (b.Bool? && b.b == x) || (b.Num? && b.n == (if x then 1 else 0))
    case Num(x) => (b.Num? && b.n == x) || (b.Bool? && x == (if b.b then 1 else 0))
    case Str(x) => b.Str? && b.s == x
    case Arr(xs) =>
      b.Arr? && |xs| == |b.items| && forall i :: 0 <= i < |xs| ==> PyEq(xs[i], b.items[i])
    case Obj(m) =>
      b.Obj? && m.Keys == b.fields.Keys && forall k :: k in m ==> PyEq(m[k], b.fields[k])
  }

  /** The falsy values are exactly None, False, 0, '', [] and {}. */
  lemma FalsyValues(v: Value)
    ensures !Truthy(v) <==>
      v == Null || v == Bool(false) || v == Num(0) || v == Str("") || v == Arr([]) || v == Obj(map[])
  {
  }

  /** Without floats, `==` on decoded JSON is reflexive. */
  lemma {:induction false} PyEqReflexive(a: Value)
    ensures PyEq(a, a)
    decreases a
  {
    match a
    case Arr(xs) =>
      forall i | 0 <= i < |xs| ensures PyEq(xs[i], xs[i]) {
        PyEqReflexive(xs[i]);
      }
    case Obj(m) =>
      forall k | k in m ensures PyEq(m[k], m[k]) {
        PyEqReflexive(m[k]);
      }
    case _ =>
  }

  /** `==` on decoded JSON is symmetric, so `a == b` and `b == a` agree. */
  lemma {:induction false} PyEqSymmetric(a: Value, b: Value)
    ensures PyEq(a, b) ==> PyEq(b, a)
    decreases a
  {
    if PyEq(a, b) {
      match a
      case Arr(xs) =>
        forall i | 0 <= i < |b.items| ensures PyEq(b.items[i], xs[i]) {
          PyEqSymmetric(xs[i], b.items[i]);
        }
      case Obj(m) =>
        forall k | k in b.fields ensures PyEq(b.fields[k], m[k]) {
          PyEqSymmetric(m[k], b.fields[k]);
        }
      case _ =>
    }
  }

  /** A string equals only the identical string. */
  lemma PyEqStr(s: string, v: Value)
    ensures PyEq(Str(s), v) <==> v == Str(s)
  {
    if PyEq(Str(s), v) {
      assert v.Str? && v.s == s;
    }
  }

  predicate OccursAt(p: string, s: string, i: nat) {
    i + |p| <= |s| && s[i..i + |p|] == p
  }

  predicate IsSubstring(p: string, s: string) {
    exists i: nat | i <= |s| :: OccursAt(p, s, i)
  }

  /**
   * Python's `item in container` for a string `item`: element membership in a
   * list, substring search in a string, key membership in a dict. None stands
   * for the TypeError Python raises on a number, a boolean or None.
   */
  function Contains(container: Value, item: string): (r: Option<bool>)
    ensures container.Arr? ==> r == Some(Str(item) in container.items)
    ensures container.Str? ==> r == Some(IsSubstring(item, container.s))
    ensures container.Obj? ==> r == Some(item in container.fields)
    ensures r.None? <==> (container.Null? || container.Bool? || container.Num?)
  {
    match container
    case Arr(xs) =>
      var found := exists i | 0 <= i < |xs| :: PyEq(Str(item), xs[i]);
      assert found <==> Str(item) in xs by {
        forall i | 0 <= i < |xs| ensures PyEq(Str(item), xs[i]) <==> xs[i] == Str(item) {
          PyEqStr(item, xs[i]);
        }
      }
      Some(found)
    case Str(s) => Some(IsSubstring(item, s))
    case Obj(m) => Some(item in m)
    case _ => None
  }

  /** Python's `s.split(sep)` with an explicit one-character separator. */
  function Split(s: string, sep: char): (pieces: seq<string>)
    ensures |pieces| >= 1
    decreases |s|
  {
    if s == [] then [""]
    else
      var rest := Split(s[1..], sep);
      if s[0] == sep then [""] + rest
      else [[s[0]] + rest[0]] + rest[1..]
  }

  /** Python's `sep.join(pieces)`. */
  function Join(pieces: seq<string>, sep: char): string
    decreases |pieces|
  {
    if pieces == [] then ""
    else if |pieces| == 1 then pieces[0]
    else pieces[0] + [sep] + Join(pieces[1..], sep)
  }

  /** Joining the pieces with the separator gives back the original string. */
  lemma {:induction false} SplitJoin(s: string, sep: char)
    ensures Join(Split(s, sep), sep) == s
    decreases |s|
  {
    if s != [] {
      SplitJoin(s[1..], sep);
      var rest := Split(s[1..], sep);
      if s[0] != sep {
        if |rest| > 1 {
          assert rest == [rest[0]] + rest[1..];
          assert Join(rest, sep) == rest[0] + [sep] + Join(rest[1..], sep);
          assert s == [s[0]] + s[1..];
        }
      }
    }
  }

  /** No piece contains the separator. */
  lemma {:induction false} SplitPiecesSepFree(s: string, sep: char)
    ensures forall i :: 0 <= i < |Split(s, sep)| ==> sep !in Split(s, sep)[i]
    decreases |s|
  {
    if s != [] {
      SplitPiecesSepFree(s[1..], sep);
    }
  }

  /** The number of pieces is one more than the number of separators. */
  lemma {:induction false} SplitCount(s: string, sep: char)
    ensures |Split(s, sep)| == multiset(s)[sep] + 1
    decreases |s|
  {
    if s != [] {
      SplitCount(s[1..], sep);
      assert s == [s[0]] + s[1..];
      assert multiset(s) == multiset([s[0]]) + multiset(s[1..]);
    }
  }

  /** A string free of the separator splits into itself alone. */
  lemma {:induction false} SplitNoSep(s: string, sep: char)
    requires sep !in s
    ensures Split(s, sep) == [s]
    decreases |s|
  {
    if s != [] {
      SplitNoSep(s[1..], sep);
      assert s == [s[0]] + s[1..];
    }
  }

  /** The first separator ends the first piece. */
  lemma {:induction false} SplitAfter(p: string, sep: char, q: string)
    requires sep !in p
    ensures Split(p + [sep] + q, sep) == [p] + Split(q, sep)
    decreases |p|
  {
    var s := p + [sep] + q;
    if p != [] {
      assert s[1..] == p[1..] + [sep] + q;
      SplitAfter(p[1..], sep, q);
      assert p == [p[0]] + p[1..];
    } else {
      assert s[1..] == q;
    }
  }

  /** ASCII upper case to lower case, as `str.lower()` does on ASCII. */
  function LowerChar(c: char): char {
    if 'A' <= c <= 'Z' then (c as int + 32) as char else c
  }

  function Lower(s: string): string {
    seq(|s|, i requires 0 <= i < |s| => LowerChar(s[i]))
  }

  /** Lower-casing keeps the length and maps a space, and only a space, to a space. */
  lemma LowerSpaces(s: string)
    ensures |Lower(s)| == |s|
    ensures ' ' in s <==> ' ' in Lower(s)
  {
    if ' ' in Lower(s) {
      var i :| 0 <= i < |s| && Lower(s)[i] == ' ';
      assert LowerChar(s[i]) == ' ';
      assert s[i] == ' ';
    }
    if ' ' in s {
      var i :| 0 <= i < |s| && s[i] == ' ';
      assert Lower(s)[i] == ' ';
    }
  }
}

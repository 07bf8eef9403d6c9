/**
 * Python values as the generator handles them: the documents that
 * `response.json()` decodes, with the truthiness, `str()`, `dict.get`,
 * `in` and `for`-iteration rules the generator relies on, and the two
 * exceptions that escape it when a document has an unexpected shape.
 */
module Values {

  datatype Option<T> = None | Some(value: T)

  datatype Result<T, E> = Success(value: T) | Failure(error: E)

  /** The exceptions that escape the generator's own handlers. */
  datatype Fault = TypeError | AttributeError

  /**
   * A decoded JSON value. Numbers are integers; an object keeps its members
   * in document order, as a Python dict does.
   */
  datatype Json =
    | Null
    | Bool(b: bool)
    | Num(n: int)
    | Str(s: string)
    | Arr(items: seq<Json>)
    | Obj(fields: seq<(string, Json)>)

  /** Python truthiness: `if not v` takes its branch exactly when this is false. */
  predicate Truthy(v: Json) {
    match v
    case Null => false
    case Bool(b) => b
    case Num(n) => n != 0
    case Str(s) => s != ""
    case Arr(items) => items != []
    case Obj(fields) => fields != []
  }

  /**
   * `key in d` and `d[key]` on a decoded object: the value is the one stored
   * under the last occurrence of the key, as json.loads keeps it.
   */
  function Lookup(fields: seq<(string, Json)>, key: string): (r: Option<Json>)
    ensures r.None? <==> forall i :: 0 <= i < |fields| ==> fields[i].0 != key
    ensures r.Some? ==> exists i :: 0 <= i < |fields| && fields[i] == (key, r.value) &&
                                    forall j :: i < j < |fields| ==> fields[j].0 != key
  {
    if fields == [] then None
    else if fields[|fields| - 1].0 == key then Some(fields[|fields| - 1].1)
    else Lookup(fields[..|fields| - 1], key)
  }

  /** `d.get(key, absent)` on a decoded object. */
  function Get(fields: seq<(string, Json)>, key: string, absent: Json): Json {
    match Lookup(fields, key)
    case Some(v) => v
    case None => absent
  }

  /** `sep.join(parts)`. */
  function Join(parts: seq<string>, sep: string): string {
    if parts == [] then ""
    else if |parts| == 1 then parts[0]
    else Join(parts[..|parts| - 1], sep) + sep + parts[|parts| - 1]
  }

  /** `s.split(sep)` for a one-character separator. */
  function Split(s: string, sep: char): (r: seq<string>)
    ensures |r| >= 1
  {
    if s == [] then [""]
    else if s[|s| - 1] == sep then Split(s[..|s| - 1], sep) + [""]
    else Extend(Split(s[..|s| - 1], sep), [s[|s| - 1]])
  }

  /** `pieces` with `t` appended to its last piece. */
  function Extend(pieces: seq<string>, t: string): (r: seq<string>)
    requires |pieces| >= 1
    ensures |r| == |pieces|
  {
    pieces[..|pieces| - 1] + [pieces[|pieces| - 1] + t]
  }

  lemma ExtendTwice(pieces: seq<string>, t: string, u: string)
    requires |pieces| >= 1
    ensures Extend(Extend(pieces, t), u) == Extend(pieces, t + u)
  {
    var e := Extend(pieces, t);
    assert e[..|e| - 1] == pieces[..|pieces| - 1];
    assert e[|e| - 1] + u == pieces[|pieces| - 1] + (t + u);
  }

  /** Appending text free of the separator extends the last piece only. */
  lemma {:induction false} SplitAppend(x: string, y: string, sep: char)
    requires sep !in y
    ensures Split(x + y, sep) == Extend(Split(x, sep), y)
    decreases |y|
  {
    var sx := Split(x, sep);
    if y == [] {
      assert x + y == x;
      assert sx[|sx| - 1] + y == sx[|sx| - 1];
      assert sx[..|sx| - 1] + [sx[|sx| - 1]] == sx;
    } else {
      var y', c := y[..|y| - 1], y[|y| - 1];
      assert y == y' + [c];
      assert c != sep by { assert c in y; }
      assert sep !in y' by {
        forall k | 0 <= k < |y'| ensures y'[k] != sep { assert y'[k] in y; }
      }
      SplitAppend(x, y', sep);
      assert (x + y)[..|x + y| - 1] == x + y';
      ExtendTwice(sx, y', [c]);
    }
  }

  /** A piece free of the separator splits into itself. */
  lemma SplitPiece(p: string, sep: char)
    requires sep !in p
    ensures Split(p, sep) == [p]
  {
    SplitAppend("", p, sep);
    assert "" + p == p;
  }

  /** One more separator-free part keeps the split of a join exact. */
  lemma SplitJoinStep(init: seq<string>, last: string, sep: char)
    requires |init| >= 1 && sep !in last
    requires Split(Join(init, [sep]), sep) == init
    ensures Split(Join(init + [last], [sep]), sep) == init + [last]
  {
    var parts := init + [last];
    assert parts[..|parts| - 1] == init;
    var head := Join(init, [sep]) + [sep];
    assert Split(head, sep) == init + [""] by {
      assert head[..|head| - 1] == Join(init, [sep]);
    }
    assert Join(parts, [sep]) == head + last;
    SplitAppend(head, last, sep);
    assert (init + [""])[..|init|] == init;
    assert "" + last == last;
  }

  /** Splitting a join recovers the parts when no part holds the separator. */
  lemma {:induction false} SplitJoin(parts: seq<string>, sep: char)
    requires parts != []
    requires forall i :: 0 <= i < |parts| ==> sep !in parts[i]
    ensures Split(Join(parts, [sep]), sep) == parts
  {
    if |parts| == 1 {
      SplitPiece(parts[0], sep);
    } else {
      var init, last := parts[..|parts| - 1], parts[|parts| - 1];
      forall i | 0 <= i < |init| ensures sep !in init[i] { assert init[i] == parts[i]; }
      SplitJoin(init, sep);
      SplitJoinStep(init, last, sep);
      assert init + [last] == parts;
    }
  }

  /** `sub in s` for strings. */
  predicate Contains(s: string, sub: string)
    decreases |s|
  {
    sub <= s || (s != [] && Contains(s[1..], sub))
  }

  /** Decimal digits of a natural number, as Python's str() writes it. */
  function NatText(n: nat): string
    decreases n
  {
    (if n < 10 then "" else NatText(n / 10)) + [('0' as int + n % 10) as char]
  }

  /** Python's str() of an integer. */
  function IntText(n: int): string {
    if n < 0 then "-" + NatText(-n) else NatText(n)
  }

  /**
   * Python's repr() of a value. Strings are quoted with single quotes;
   * Python's escaping inside the quotes is not reproduced.
   */
  function Repr(v: Json): string
    decreases v
  {
    match v
    case Null => "None"
    case Bool(b) => if b then "True" else "False"
    case Num(n) => IntText(n)
    case Str(s) => "'" + s + "'"
    case Arr(items) =>
      "[" + Join(seq(|items|, i requires 0 <= i < |items| => Repr(items[i])), ", ") + "]"
    case Obj(fields) =>
      "{" + Join(seq(|fields|, i requires 0 <= i < |fields| =>
                      "'" + fields[i].0 + "': " + Repr(fields[i].1)), ", ") + "}"
  }

  /** Python's str(): what an f-string interpolation writes. */
  function Show(v: Json): string {
    if v.Str? then v.s else Repr(v)
  }

  /**
   * What a Python `for` loop visits in `v`: the items of a list, the keys of
   * a dict, the characters of a string; anything else is not iterable.
   */
  function Iterate(v: Json): (r: Result<seq<Json>, Fault>)
    ensures r.Failure? <==> v.Null? || v.Bool? || v.Num?
    ensures r.Failure? ==> r.error == TypeError
    ensures v.Arr? ==> r == Success(v.items)
    ensures r.Success? && !v.Arr? ==> forall k :: 0 <= k < |r.value| ==> r.value[k].Str?
    ensures r.Success? ==> (r.value == [] <==> !Truthy(v))
  {
    match v
    case Arr(items) => Success(items)
    case Obj(fields) => Success(seq(|fields|, k requires 0 <= k < |fields| => Str(fields[k].0)))
    case Str(s) => Success(seq(|s|, k requires 0 <= k < |s| => Str([s[k]])))
    case _ => Failure(TypeError)
  }

  /** Sequencing of two steps that may raise: the first exception wins. */
  function Then<T>(x: Result<seq<T>, Fault>, y: Result<seq<T>, Fault>): Result<seq<T>, Fault> {
    match x
    case Failure(e) => Failure(e)
    case Success(a) =>
      match y
      case Failure(e) => Failure(e)
      case Success(b) => Success(a + b)
  }

  /**
   * A Python loop over `xs` that appends what `f` yields for each item to an
   * accumulator, in order; an exception raised for one item aborts the loop
   * and discards the accumulator.
   */
  function Collect<X, T>(xs: seq<X>, f: X -> Result<seq<T>, Fault>): Result<seq<T>, Fault>
    decreases |xs|
  {
    if xs == [] then Success([])
    else Then(Collect(xs[..|xs| - 1], f), f(xs[|xs| - 1]))
  }

  /** Looping over a concatenation is looping over each part in turn. */
  lemma {:induction false} CollectAppend<X, T>(a: seq<X>, b: seq<X>, f: X -> Result<seq<T>, Fault>)
    ensures Collect(a + b, f) == Then(Collect(a, f), Collect(b, f))
    decreases |b|
  {
    if b == [] {
      assert a + b == a;
      match Collect(a, f) {
        case Failure(_) =>
        case Success(s) => assert s + [] == s;
      }
    } else {
      var b' := b[..|b| - 1];
      assert (a + b)[..|a + b| - 1] == a + b';
      assert (a + b)[|a + b| - 1] == b[|b| - 1];
      CollectAppend(a, b', f);
      match Collect(a, f) {
        case Failure(_) =>
        case Success(s) =>
          match Collect(b', f) {
            case Failure(_) =>
            case Success(t) =>
              match f(b[|b| - 1]) {
                case Failure(_) =>
                case Success(u) => assert s + t + u == s + (t + u);
              }
          }
      }
    }
  }

  /** The loop fails exactly when some item raises. */
  lemma {:induction false} CollectFails<X, T>(xs: seq<X>, f: X -> Result<seq<T>, Fault>)
    ensures Collect(xs, f).Failure? <==> exists i :: 0 <= i < |xs| && f(xs[i]).Failure?
    decreases |xs|
  {
    if xs != [] {
      var init := xs[..|xs| - 1];
      CollectFails(init, f);
      if exists i :: 0 <= i < |init| && f(init[i]).Failure? {
        var i :| 0 <= i < |init| && f(init[i]).Failure?;
        assert xs[i] == init[i];
      }
      if exists i :: 0 <= i < |xs| && f(xs[i]).Failure? {
        var i :| 0 <= i < |xs| && f(xs[i]).Failure?;
        if i < |init| { assert init[i] == xs[i]; }
      }
    }
  }

  /** A failure in a prefix is the failure of the whole loop. */
  lemma CollectPrefixFails<X, T>(xs: seq<X>, n: nat, f: X -> Result<seq<T>, Fault>)
    requires n <= |xs| && Collect(xs[..n], f).Failure?
    ensures Collect(xs, f) == Collect(xs[..n], f)
  {
    CollectAppend(xs[..n], xs[n..], f);
    assert xs[..n] + xs[n..] == xs;
  }

  lemma ConcatAssoc<T>(a: seq<T>, b: seq<T>, c: seq<T>)
    ensures a + b + c == a + (b + c)
  {
  }

  /** One more iteration of the loop. */
  lemma CollectStep<X, T>(xs: seq<X>, i: nat, f: X -> Result<seq<T>, Fault>)
    requires i < |xs|
    ensures Collect(xs[..i + 1], f) == Then(Collect(xs[..i], f), f(xs[i]))
  {
    assert xs[..i + 1][..i] == xs[..i];
  }

  /** Looping over `[x] + rest` runs `f` on `x` first. */
  lemma CollectCons<X, T>(x: X, rest: seq<X>, f: X -> Result<seq<T>, Fault>)
    ensures Collect([x] + rest, f) == Then(f(x), Collect(rest, f))
  {
    CollectAppend([x], rest, f);
    assert [x][..0] == [];
    match f(x) {
      case Failure(_) =>
      case Success(u) => assert [] + u == u;
    }
  }

  lemma ThenAssoc<T>(a: Result<seq<T>, Fault>, b: Result<seq<T>, Fault>, c: Result<seq<T>, Fault>)
    ensures Then(a, Then(b, c)) == Then(Then(a, b), c)
  {
    if a.Success? && b.Success? && c.Success? {
      assert a.value + (b.value + c.value) == a.value + b.value + c.value;
    }
  }

  /** Looping over `xs` is looping over `xs[..n]`, then over `xs[n..]`. */
  lemma CollectSplit<X, T>(xs: seq<X>, n: nat, f: X -> Result<seq<T>, Fault>)
    requires n <= |xs|
    ensures Collect(xs, f) == Then(Collect(xs[..n], f), Collect(xs[n..], f))
  {
    assert xs == xs[..n] + xs[n..];
    CollectAppend(xs[..n], xs[n..], f);
  }

  /** On success, item i's output sits between the outputs of the items before and after it. */
  lemma CollectAt<X, T>(xs: seq<X>, i: nat, f: X -> Result<seq<T>, Fault>)
    requires i < |xs| && Collect(xs, f).Success?
    ensures f(xs[i]).Success?
    ensures Collect(xs[..i], f).Success? && Collect(xs[i + 1..], f).Success?
    ensures Collect(xs, f).value ==
            Collect(xs[..i], f).value + f(xs[i]).value + Collect(xs[i + 1..], f).value
  {
    var pre, x, post := xs[..i], xs[i], xs[i + 1..];
    CollectSplit(xs, i, f);
    assert xs[i..] == [x] + post;
    CollectCons(x, post, f);
    ThenAssoc(Collect(pre, f), f(x), Collect(post, f));
  }

  /** When every item yields exactly one element, the loop yields them in order. */
  lemma {:induction false} CollectSingles<X, T>(xs: seq<X>, f: X -> Result<seq<T>, Fault>)
    requires forall i :: 0 <= i < |xs| ==> f(xs[i]).Success? && |f(xs[i]).value| == 1
    ensures Collect(xs, f).Success?
    ensures |Collect(xs, f).value| == |xs|
    ensures forall i :: 0 <= i < |xs| ==> Collect(xs, f).value[i] == f(xs[i]).value[0]
    decreases |xs|
  {
    if xs != [] {
      var init := xs[..|xs| - 1];
      forall i | 0 <= i < |init| ensures f(init[i]).Success? && |f(init[i]).value| == 1 {
        assert init[i] == xs[i];
      }
      CollectSingles(init, f);
    }
  }
}

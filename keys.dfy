/**
 * Binding keys. A key is the list of input codes joined with ','; when a
 * binding is registered for several event types at once, each type gets the
 * key "<inputs>+<type>".
 */
module Keys {

  const InputSeparator: char := ','
  const TypeSeparator: char := '+'

  /** The elements of `xs` with `sep` between neighbours (string join). */
  function Join(xs: seq<string>, sep: char): string
  {
    if |xs| == 0 then ""
    else if |xs| == 1 then xs[0]
    else xs[0] + [sep] + Join(xs[1..], sep)
  }

  /** The pieces of `s` between occurrences of `sep`; never empty. */
  function Split(s: string, sep: char): (parts: seq<string>)
    ensures |parts| >= 1
    ensures forall i :: 0 <= i < |parts| ==> sep !in parts[i]
    decreases |s|
  {
    if |s| == 0 then [""]
    else
      var rest := Split(s[1..], sep);
      if s[0] == sep then [""] + rest
      else [[s[0]] + rest[0]] + rest[1..]
  }

  /** The lookup key of a binding: the input codes joined with ','. */
  function BindingKey(inputs: seq<string>): (key: string)
    ensures inputs == [] ==> key == ""
    ensures |inputs| == 1 ==> key == inputs[0]
  {
    Join(inputs, InputSeparator)
  }

  /** The lookup key of one event type of a multi-type binding. */
  function TypedKey(key: string, eventType: string): (k: string)
    ensures |k| == |key| + 1 + |eventType|
    ensures k[..|key|] == key && k[|key|] == TypeSeparator && k[|key| + 1..] == eventType
  {
    key + [TypeSeparator] + eventType
  }

  /** A typed key is never the bare key, and it determines its event type. */
  lemma TypedKeyInjective(key: string, t1: string, t2: string)
    ensures TypedKey(key, t1) != key
    ensures TypedKey(key, t1) == TypedKey(key, t2) <==> t1 == t2
  {
    if TypedKey(key, t1) == TypedKey(key, t2) {
      calc {
        t1;
        TypedKey(key, t1)[|key| + 1..];
        TypedKey(key, t2)[|key| + 1..];
        t2;
      }
    }
  }

  /** Splitting stops at the first separator after a separator-free piece. */
  lemma {:induction false} SplitAfterPiece(a: string, b: string, sep: char)
    requires sep !in a
    ensures Split(a + [sep] + b, sep) == [a] + Split(b, sep)
    decreases |a|
  {
    var s := a + [sep] + b;
    if |a| == 0 {
      assert s[1..] == b;
    } else {
      assert s[1..] == a[1..] + [sep] + b;
      SplitAfterPiece(a[1..], b, sep);
      assert [a[0]] + a[1..] == a;
    }
  }

  /** A separator-free string splits into itself. */
  lemma {:induction false} SplitPiece(a: string, sep: char)
    requires sep !in a
    ensures Split(a, sep) == [a]
    decreases |a|
  {
    if |a| > 0 {
      SplitPiece(a[1..], sep);
      assert [a[0]] + a[1..] == a;
    }
  }

  /** Split undoes Join on a non-empty list of separator-free pieces. */
  lemma {:induction false} SplitJoin(xs: seq<string>, sep: char)
    requires |xs| >= 1
    requires forall i :: 0 <= i < |xs| ==> sep !in xs[i]
    ensures Split(Join(xs, sep), sep) == xs
    decreases |xs|
  {
    if |xs| == 1 {
      SplitPiece(xs[0], sep);
    } else {
      SplitJoin(xs[1..], sep);
      SplitAfterPiece(xs[0], Join(xs[1..], sep), sep);
      assert [xs[0]] + xs[1..] == xs;
    }
  }

  /** Join undoes Split on every string. */
  lemma {:induction false} JoinSplit(s: string, sep: char)
    ensures Join(Split(s, sep), sep) == s
    decreases |s|
  {
    if |s| > 0 {
      var rest := Split(s[1..], sep);
      JoinSplit(s[1..], sep);
      if s[0] == sep {
        assert ([""] + rest)[1..] == rest;
      } else {
        var parts := [[s[0]] + rest[0]] + rest[1..];
        if |rest| == 1 {
          assert parts == [[s[0]] + rest[0]];
        } else {
          assert parts[1..] == rest[1..];
          assert Join(rest, sep) == rest[0] + [sep] + Join(rest[1..], sep);
        }
        assert [s[0]] + s[1..] == s;
      }
    }
  }

  /**
   * Two non-empty lists of input codes that contain no ',' have the same
   * binding key only when they are the same list.
   */
  lemma BindingKeyInjective(xs: seq<string>, ys: seq<string>)
    requires |xs| >= 1 && |ys| >= 1
    requires forall i :: 0 <= i < |xs| ==> InputSeparator !in xs[i]
    requires forall i :: 0 <= i < |ys| ==> InputSeparator !in ys[i]
    ensures BindingKey(xs) == BindingKey(ys) <==> xs == ys
  {
    SplitJoin(xs, InputSeparator);
    SplitJoin(ys, InputSeparator);
  }

  /** Without those conditions keys collide: no inputs and one empty input, or a code holding ','. */
  lemma BindingKeyCollisions()
    ensures BindingKey([]) == BindingKey([""])
    ensures BindingKey(["KeyA,KeyB"]) == BindingKey(["KeyA", "KeyB"])
  {
    assert BindingKey(["KeyA", "KeyB"]) == "KeyA" + [','] + "KeyB";
  }
}

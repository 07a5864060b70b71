/** Small value types and sequence helpers shared by every component. */
module Common {
  datatype Option<T> = None | Some(value: T)

  /** The position of the first occurrence of x in s (what std::find reaches). */
  function IndexOf<T(==)>(s: seq<T>, x: T): (i: nat)
    requires x in s
    ensures i < |s| && s[i] == x && x !in s[..i]
  {
    if s[0] == x then 0 else 1 + IndexOf(s[1..], x)
  }

  /** s with its first occurrence of x erased (std::find followed by erase); s itself when x is absent. */
  function RemoveFirst<T(==)>(s: seq<T>, x: T): (r: seq<T>)
  {
    if x in s then s[..IndexOf(s, x)] + s[IndexOf(s, x) + 1..] else s
  }

  /** The concatenation of a sequence of lists, in order (the traversal order of nested loops). */
  function Flatten<T>(ss: seq<seq<T>>): (r: seq<T>)
    ensures |ss| == 0 ==> r == []
  {
    if |ss| == 0 then [] else Flatten(ss[..|ss| - 1]) + ss[|ss| - 1]
  }

  /** Concatenation is associative. */
  lemma AppendAssoc<T>(a: seq<T>, b: seq<T>, c: seq<T>)
    ensures a + (b + c) == a + b + c
  {
  }

  /** One more element of l after the prefix a + l[..j]. */
  lemma PrefixSnoc<T>(a: seq<T>, l: seq<T>, j: nat)
    requires j < |l|
    ensures a + l[..j] + [l[j]] == a + l[..j + 1]
  {
    assert l[..j + 1] == l[..j] + [l[j]];
  }

  lemma FlattenSnoc<T>(ss: seq<seq<T>>, k: nat)
    requires k < |ss|
    ensures Flatten(ss[..k + 1]) == Flatten(ss[..k]) + ss[k]
  {
    assert ss[..k + 1][..k] == ss[..k];
  }

  /** Every element of the flattened layers is in some layer. */
  lemma {:induction false} FlattenMembers<T>(ls: seq<seq<T>>)
    ensures forall x :: x in Flatten(ls) ==> exists k :: 0 <= k < |ls| && x in ls[k]
    decreases |ls|
  {
    if |ls| > 0 {
      var init := ls[..|ls| - 1];
      FlattenMembers(init);
      forall x | x in Flatten(ls)
        ensures exists k :: 0 <= k < |ls| && x in ls[k]
      {
        if x in Flatten(init) {
          var k :| 0 <= k < |init| && x in init[k];
          assert ls[k] == init[k];
        } else {
          assert x in ls[|ls| - 1];
        }
      }
    }
  }


  /** Every element of a layer is in the flattened layers. */
  lemma {:induction false} FlattenHas<T>(ls: seq<seq<T>>, k: nat, x: T)
    requires k < |ls| && x in ls[k]
    ensures x in Flatten(ls)
    decreases |ls|
  {
    if k < |ls| - 1 {
      FlattenHas(ls[..|ls| - 1], k, x);
    }
  }

  /** Erasing the first occurrence drops exactly one copy of x and keeps every other element. */
  lemma {:induction false} RemoveFirstMultiset<T>(s: seq<T>, x: T)
    ensures x in s ==> multiset(RemoveFirst(s, x)) == multiset(s) - multiset{x}
    ensures x !in s ==> RemoveFirst(s, x) == s
    ensures x in s ==> |RemoveFirst(s, x)| == |s| - 1
  {
    if x in s {
      var i := IndexOf(s, x);
      assert s == s[..i] + [s[i]] + s[i + 1..];
      calc {
        multiset(s);
        multiset(s[..i]) + multiset{x} + multiset(s[i + 1..]);
      }
    }
  }

  /** Unsigned 8-bit values (Uint8 channels). */
  type Byte = b: int | 0 <= b < 256

  /** The value an int takes when stored into a Uint8 (reduction modulo 256). */
  function ToByte(i: int): (b: Byte)
    ensures (b - i) % 256 == 0
  {
    i % 256
  }

  /** Flattening distributes over concatenation. */
  lemma {:induction false} FlattenAppend<T>(a: seq<seq<T>>, b: seq<seq<T>>)
    ensures Flatten(a + b) == Flatten(a) + Flatten(b)
    decreases |b|
  {
    if |b| == 0 {
      assert a + b == a;
    } else {
      assert (a + b)[..|a + b| - 1] == a + b[..|b| - 1];
      FlattenAppend(a, b[..|b| - 1]);
    }
  }

  /** The lists of a lower index come first: the flattening holds list i, then later list j. */
  lemma FlattenOrder<T>(ls: seq<seq<T>>, i: nat, j: nat)
    requires i < j < |ls|
    ensures exists pre, mid, post :: Flatten(ls) == pre + ls[i] + mid + ls[j] + post
  {
    var pre := Flatten(ls[..i]);
    var mid := Flatten(ls[i + 1..j]);
    var post := Flatten(ls[j + 1..]);
    FlattenSplit(ls, j);
    FlattenSplit(ls[..j], i);
    assert ls[..j][..i] == ls[..i] && ls[..j][i + 1..] == ls[i + 1..j] && ls[..j][i] == ls[i];
    assert Flatten(ls) == pre + ls[i] + mid + ls[j] + post;
  }

  /** Flattening around list k: the lists before it, then it, then the lists after it. */
  lemma FlattenSplit<T>(ls: seq<seq<T>>, k: nat)
    requires k < |ls|
    ensures Flatten(ls) == Flatten(ls[..k]) + ls[k] + Flatten(ls[k + 1..])
  {
    assert ls == ls[..k + 1] + ls[k + 1..];
    FlattenAppend(ls[..k + 1], ls[k + 1..]);
    FlattenSnoc(ls, k);
  }

  /** The decimal digits of n (std::to_string of a non-negative value): no sign, no leading zero. */
  function DecimalString(n: nat): (s: string)
    ensures |s| > 0 && forall i :: 0 <= i < |s| ==> '0' <= s[i] <= '9'
    ensures n > 0 ==> s[0] != '0'
  {
    if n < 10 then [Digit(n)] else DecimalString(n / 10) + [Digit(n % 10)]
  }

  function Digit(d: nat): (c: char)
    requires d < 10
    ensures '0' <= c <= '9'
  {
    ['0', '1', '2', '3', '4', '5', '6', '7', '8', '9'][d]
  }

  /** The value of a string of decimal digits. */
  function DigitsValue(s: string): nat
    requires forall i :: 0 <= i < |s| ==> '0' <= s[i] <= '9'
  {
    if |s| == 0 then 0 else 10 * DigitsValue(s[..|s| - 1]) + ((s[|s| - 1] as int) - ('0' as int))
  }

  /** Reading the digits back gives the number: distinct numbers get distinct strings. */
  lemma {:induction false} DecimalStringRoundTrip(n: nat)
    ensures DigitsValue(DecimalString(n)) == n
  {
    if n >= 10 {
      var s := DecimalString(n);
      assert s[..|s| - 1] == DecimalString(n / 10);
      DecimalStringRoundTrip(n / 10);
    }
  }

  lemma DecimalStringInjective(m: nat, n: nat)
    requires DecimalString(m) == DecimalString(n)
    ensures m == n
  {
    DecimalStringRoundTrip(m);
    DecimalStringRoundTrip(n);
  }
}

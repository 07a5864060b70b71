/**
 * Taggable: a vector of string tags with exact, case-sensitive membership,
 * append-only insertion and a removal that calls std::remove without erase.
 */
module Tags {
  const Collision := "Collision"
  const Renderable := "Renderable"
  const NotRendering := "NotRendering"
  const Movable := "Movable"
  const EntityTag := "Entity"
  const PlayerEntity := "PlayerEntity"
  const Global := "Global"
  const GUIElementTag := "GUIElement"
  const ChildGUIElement := "ChildToGUIElement"

  /** The tags other than t, in their original order (what std::remove compacts to the front). */
  function Without(s: seq<string>, t: string): (r: seq<string>)
    ensures |r| <= |s|
  {
    if |s| == 0 then []
    else Without(s[..|s| - 1], t) + (if s[|s| - 1] == t then [] else [s[|s| - 1]])
  }

  lemma WithoutSnoc(s: seq<string>, t: string, i: nat)
    requires i < |s|
    ensures Without(s[..i + 1], t) == Without(s[..i], t) + (if s[i] == t then [] else [s[i]])
  {
    assert s[..i + 1][..i] == s[..i];
  }

  /** Without drops every copy of t, exactly |s| - count(t) tags survive, and the others keep their multiplicity. */
  lemma {:induction false} WithoutCounts(s: seq<string>, t: string)
    ensures t !in Without(s, t)
    ensures |Without(s, t)| == |s| - multiset(s)[t]
    ensures multiset(Without(s, t)) == multiset(s)[t := 0]
  {
    if |s| > 0 {
      var init := s[..|s| - 1];
      WithoutCounts(init, t);
      assert s == init + [s[|s| - 1]];
    }
  }

  /** Without leaves a t-free vector untouched. */
  lemma {:induction false} WithoutAbsent(s: seq<string>, t: string)
    requires t !in s
    ensures Without(s, t) == s
  {
    if |s| > 0 {
      WithoutAbsent(s[..|s| - 1], t);
      assert s == s[..|s| - 1] + [s[|s| - 1]];
    }
  }

  /**
   * What a slot past the compacted prefix holds after std::remove: a copy of t is never
   * moved, and a kept tag that was moved forward leaves an empty (moved-from) string.
   */
  function MovedFrom(x: string, t: string): string { if x == t then t else "" }

  /** The tag vector after `std::remove(tags.begin(), tags.end(), t)` with no erase. */
  function Removed(s: seq<string>, t: string): seq<string>
  {
    var k := |Without(s, t)|;
    Without(s, t) + seq(|s| - k, j requires 0 <= j < |s| - k => MovedFrom(s[k + j], t))
  }

  /** Any vector that agrees with Without on the front and with MovedFrom on the rest is Removed. */
  lemma RemovedCharacterised(s: seq<string>, t: string, a: seq<string>)
    requires |a| == |s| && |Without(s, t)| <= |s|
    requires a[..|Without(s, t)|] == Without(s, t)
    requires forall p :: |Without(s, t)| <= p < |s| ==> a[p] == MovedFrom(s[p], t)
    ensures a == Removed(s, t)
  {
    var k := |Without(s, t)|;
    var r := Removed(s, t);
    assert |r| == |s|;
    forall p | 0 <= p < |s| ensures a[p] == r[p] {
      if p < k { assert a[p] == a[..k][p]; } else { assert r[p] == MovedFrom(s[k + (p - k)], t); }
    }
  }

  /** RemoveTag never shrinks the vector; the front holds the other tags in order and every slot holding t past it keeps t. */
  lemma RemovedShape(s: seq<string>, t: string)
    ensures |Removed(s, t)| == |s|
    ensures Removed(s, t)[..|Without(s, t)|] == Without(s, t)
    ensures forall p :: |Without(s, t)| <= p < |s| && s[p] == t ==> Removed(s, t)[p] == t
  {
    var k := |Without(s, t)|;
    var r := Removed(s, t);
    assert r[..k] == Without(s, t);
    forall p | k <= p < |s| && s[p] == t ensures r[p] == t {
      assert r[p] == MovedFrom(s[k + (p - k)], t);
    }
  }

  /** Removing an absent tag changes nothing. */
  lemma RemovedAbsent(s: seq<string>, t: string)
    requires t !in s
    ensures Removed(s, t) == s
  {
    WithoutAbsent(s, t);
  }

  /** When the tags from position k on are all t and none before is, Without keeps exactly the front. */
  lemma {:induction false} WithoutTail(s: seq<string>, t: string, k: nat)
    requires k <= |s| && t !in s[..k] && forall p :: k <= p < |s| ==> s[p] == t
    ensures Without(s, t) == s[..k]
    decreases |s|
  {
    if |s| == k {
      assert s[..k] == s;
      WithoutAbsent(s, t);
    } else {
      var init := s[..|s| - 1];
      assert init[..k] == s[..k];
      WithoutTail(init, t, k);
    }
  }

  /** When every copy of t already sits after all other tags, RemoveTag changes nothing and t is still present. */
  lemma {:induction false} RemovedPartitioned(s: seq<string>, t: string)
    requires forall i, j :: 0 <= i < j < |s| && s[i] == t ==> s[j] == t
    ensures Removed(s, t) == s
    ensures t in s ==> t in Removed(s, t)
  {
    var k := 0;
    while k < |s| && s[k] != t
      invariant 0 <= k <= |s| && t !in s[..k]
    {
      assert s[..k + 1] == s[..k] + [s[k]];
      k := k + 1;
    }
    WithoutTail(s, t, k);
    RemovedCharacterised(s, t, s);
  }

  /** The example of a tag added last and then removed: it stays in place. */
  lemma RemoveLastTagKeepsIt()
    ensures Removed(["Entity", "DontMove"], "DontMove") == ["Entity", "DontMove"]
  {
    RemovedPartitioned(["Entity", "DontMove"], "DontMove");
  }

  /** std::remove on a vector of tags: find the first t, then move every later non-t tag forward. */
  method StdRemove(s: seq<string>, t: string) returns (a: seq<string>)
    ensures a == Removed(s, t)
  {
    var n := |s|;
    var first := 0;
    while first < n && s[first] != t
      invariant 0 <= first <= n && t !in s[..first]
    {
      assert s[..first + 1] == s[..first] + [s[first]];
      first := first + 1;
    }
    if first == n {
      assert s[..n] == s;
      WithoutAbsent(s, t);
      a := s;
    } else {
      a := MoveForward(s, t, first);
    }
  }

  /** The state of std::remove's moving loop after scanning s[..i] with the write position at result. */
  ghost predicate MoveState(s: seq<string>, t: string, a: seq<string>, result: nat, i: nat)
  {
    result < i <= |s| && |a| == |s|
    && a[..result] == Without(s[..i], t)
    && (forall p :: result <= p < i ==> a[p] == MovedFrom(s[p], t))
    && (forall p :: i <= p < |s| ==> a[p] == s[p])
  }

  /** One step of the moving loop: a kept tag is moved to the write position, a copy of t is skipped. */
  lemma MoveStep(s: seq<string>, t: string, a: seq<string>, result: nat, i: nat)
    requires MoveState(s, t, a, result, i) && i < |s|
    ensures s[i] != t ==> MoveState(s, t, a[result := a[i]][i := ""], result + 1, i + 1)
    ensures s[i] == t ==> MoveState(s, t, a, result, i + 1)
  {
    WithoutSnoc(s, t, i);
    if s[i] != t {
      var a' := a[result := a[i]][i := ""];
      assert a'[..result + 1] == a[..result] + [s[i]];
    }
  }

  /** The moving phase of std::remove, started at the first copy of t. */
  method MoveForward(s: seq<string>, t: string, first: nat) returns (a: seq<string>)
    requires first < |s| && s[first] == t && t !in s[..first]
    ensures a == Removed(s, t)
  {
    var n := |s|;
    MoveStart(s, t, first);
    a := s;
    var result: nat, i: nat := first, first + 1;
    while i < n
      invariant MoveState(s, t, a, result, i)
    {
      MoveStep(s, t, a, result, i);
      assert a[i] == s[i];
      if a[i] != t {
        a := a[result := a[i]][i := ""];
        result := result + 1;
      }
      i := i + 1;
    }
    MoveDone(s, t, a, result);
  }

  /** The moving loop starts just past the first copy of t, writing at that copy. */
  lemma MoveStart(s: seq<string>, t: string, first: nat)
    requires first < |s| && s[first] == t && t !in s[..first]
    ensures MoveState(s, t, s, first, first + 1)
  {
    WithoutAbsent(s[..first], t);
    WithoutSnoc(s, t, first);
  }

  /** When the moving loop has scanned the whole vector, it holds Removed. */
  lemma MoveDone(s: seq<string>, t: string, a: seq<string>, result: nat)
    requires MoveState(s, t, a, result, |s|)
    ensures a == Removed(s, t)
  {
    assert s[..|s|] == s;
    RemovedCharacterised(s, t, a);
  }

  class Taggable {
    var tags: seq<string>

    constructor ()
      ensures tags == []
    {
      tags := [];
    }

    /** HasTag: std::find over the vector, exact string equality. */
    predicate HasTag(t: string)
      reads this
    {
      t in tags
    }

    /** AddTag: push_back, duplicates kept. */
    method AddTag(t: string)
      modifies this
      ensures tags == old(tags) + [t]
      ensures HasTag(t)
      ensures forall u :: u != t ==> (HasTag(u) <==> old(HasTag(u)))
    {
      tags := tags + [t];
    }

    /** RemoveTag: std::remove over the vector, with no erase afterwards. */
    method RemoveTag(t: string)
      modifies this
      ensures tags == Removed(old(tags), t)
    {
      tags := StdRemove(tags, t);
    }
  }
}

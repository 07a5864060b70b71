/**
 * Asset path handling shared by the texture, tileset and dialogue managers:
 * the in-place backslash-to-slash rewrite and the extension filter of their
 * directory scans.
 */
module Paths {
  import opened Common

  /** The path with every '\\' turned into '/' and every other character kept. */
  function Normalised(path: string): (r: string)
  {
    seq(|path|, i requires 0 <= i < |path| => if path[i] == '\\' then '/' else path[i])
  }

  /** A normalised path keeps its length, holds no backslash, and normalising it again changes nothing. */
  lemma NormalisedProperties(path: string)
    ensures |Normalised(path)| == |path|
    ensures '\\' !in Normalised(path)
    ensures Normalised(Normalised(path)) == Normalised(path)
    ensures forall i :: 0 <= i < |path| && path[i] != '\\' ==> Normalised(path)[i] == path[i]
  {
    var r := Normalised(path);
    assert forall i :: 0 <= i < |r| ==> r[i] != '\\';
  }

  /**
   * The managers' rewrite loop: while find("\\") succeeds, replace that one
   * character with "/". Every search restarts at the front of the path.
   */
  method NormalisePath(path: string) returns (r: string)
    ensures r == Normalised(path)
  {
    r := path;
    ghost var done := 0;
    while '\\' in r
      invariant |r| == |path| && 0 <= done <= |r|
      invariant Normalised(r) == Normalised(path)
      invariant '\\' !in r[..done]
      decreases |r| - done
    {
      var i := IndexOf(r, '\\');
      assert i >= done by {
        assert forall j :: 0 <= j < done ==> r[j] == r[..done][j];
      }
      ghost var before := r;
      r := r[i := '/'];
      assert Normalised(r) == Normalised(before);
      assert r[..i + 1] == before[..i] + ['/'];
      done := i + 1;
    }
    assert Normalised(r) == r;
  }

  /** std::string::ends_with. */
  predicate EndsWith(s: string, suffix: string)
  {
    |suffix| <= |s| && s[|s| - |suffix|..] == suffix
  }

  /** The paths a directory scan hands to its loader: each entry normalised, kept when it has the extension. */
  function PathsToLoad(entries: seq<string>, ext: string): (r: seq<string>)
    ensures forall p :: p in r ==> EndsWith(p, ext) && '\\' !in p
    ensures forall e :: e in entries && EndsWith(Normalised(e), ext) ==> Normalised(e) in r
  {
    if |entries| == 0 then []
    else
      var init := PathsToLoad(entries[..|entries| - 1], ext);
      var p := Normalised(entries[|entries| - 1]);
      NormalisedProperties(entries[|entries| - 1]);
      assert forall e :: e in entries ==> e in entries[..|entries| - 1] || e == entries[|entries| - 1];
      if EndsWith(p, ext) then init + [p] else init
  }
}

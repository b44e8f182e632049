/**
 * The two `os.path` operations the plugin relies on, with the meaning they have
 * on POSIX systems (Python's `posixpath` module): `join` of two components and
 * `dirname`. `basename` is defined as well, as the partner that `dirname`
 * splits a path with.
 */
module PosixPath {

  /** The path separator. */
  const Sep: char := '/'

  /** A path is absolute when it starts with the separator. */
  predicate IsAbsolute(p: string) {
    |p| > 0 && p[0] == Sep
  }

  /** Every character of `s` is the separator (true of the empty string). */
  predicate AllSeparators(s: string) {
    forall k :: 0 <= k < |s| ==> s[k] == Sep
  }

  /** No two separators follow each other in `p`. */
  predicate NoDoubleSeparator(p: string) {
    forall k :: 0 < k < |p| ==> !(p[k - 1] == Sep && p[k] == Sep)
  }

  /**
   * `os.path.join(a, b)`: an absolute `b` replaces `a`; otherwise `b` is
   * appended to `a`, with one separator in between unless `a` is empty or
   * already ends with one.
   */
  function Join(a: string, b: string): (r: string)
    ensures |b| <= |r| && r[|r| - |b|..] == b
    ensures IsAbsolute(b) ==> r == b
    ensures !IsAbsolute(b) ==> |a| <= |r| && r[..|a|] == a
    ensures !IsAbsolute(b) && a != [] && a[|a| - 1] != Sep ==> |r| == |a| + 1 + |b| && r[|a|] == Sep
    ensures !IsAbsolute(b) && (a == [] || a[|a| - 1] == Sep) ==> |r| == |a| + |b|
  {
    if IsAbsolute(b) then b
    else if a == [] || a[|a| - 1] == Sep then a + b
    else a + [Sep] + b
  }

  /** One past the index of the last separator of `p`, or 0 when `p` has none. */
  function SlashEnd(p: string): (i: nat)
    ensures i <= |p|
    ensures i > 0 ==> p[i - 1] == Sep
    ensures forall k :: i <= k < |p| ==> p[k] != Sep
  {
    if p == [] then 0
    else if p[|p| - 1] == Sep then |p|
    else SlashEnd(p[..|p| - 1])
  }

  /** `s` without its trailing separators. */
  function RStripSeparators(s: string): (r: string)
    ensures |r| <= |s| && r == s[..|r|]
    ensures r == [] || r[|r| - 1] != Sep
    ensures forall k :: |r| <= k < |s| ==> s[k] == Sep
  {
    if s != [] && s[|s| - 1] == Sep then RStripSeparators(s[..|s| - 1]) else s
  }

  /** `os.path.basename(p)`: what follows the last separator. */
  function Basename(p: string): (r: string)
    ensures Sep !in r
    ensures |r| <= |p| && r == p[|p| - |r|..]
  {
    p[SlashEnd(p)..]
  }

  /**
   * `os.path.dirname(p)`: everything before the last separator; trailing
   * separators are stripped from it unless it consists of separators only.
   */
  function Dirname(p: string): (r: string)
    ensures |r| <= |p| && r == p[..|r|]
    ensures |r| <= SlashEnd(p)
    ensures Sep !in p ==> r == []
    ensures r == [] || AllSeparators(r) || r[|r| - 1] != Sep
    ensures SlashEnd(p) > 0 ==> r != []
    ensures forall k :: |r| <= k < SlashEnd(p) ==> p[k] == Sep
    ensures AllSeparators(p[..SlashEnd(p)]) ==> r == p[..SlashEnd(p)]
  {
    var head := p[..SlashEnd(p)];
    if head != [] && !AllSeparators(head) then RStripSeparators(head) else head
  }

  /** A path splits around the separator at index `i - 1`. */
  lemma SplitAtSeparator(p: string, i: nat)
    requires 0 < i <= |p| && p[i - 1] == Sep
    ensures p[..i] == p[..i - 1] + [Sep]
    ensures p == p[..i - 1] + [Sep] + p[i..]
  {
    assert p[..i] + p[i..] == p;
  }

  /** Stripping a path that ends in one separator after a non-separator removes just it. */
  lemma RStripOneSeparator(d: string)
    requires d != [] && d[|d| - 1] != Sep
    ensures RStripSeparators(d + [Sep]) == d
  {
    assert (d + [Sep])[..|d|] == d;
  }

  /**
   * When the last separator of `p` is preceded by something other than a
   * separator, `dirname` drops exactly that one separator and what follows it.
   */
  lemma DirnameDropsLastSeparator(p: string)
    requires NoDoubleSeparator(p)
    requires SlashEnd(p) >= 2
    ensures Dirname(p) == p[..SlashEnd(p) - 1]
    ensures p == Dirname(p) + [Sep] + Basename(p)
    ensures Dirname(p)[0] == p[0] && Dirname(p)[|Dirname(p)| - 1] != Sep
    ensures !IsAbsolute(Basename(p))
  {
    var i := SlashEnd(p);
    var d := p[..i - 1];
    assert d[i - 2] == p[i - 2] != Sep;
    SplitAtSeparator(p, i);
    RStripOneSeparator(d);
    assert p[..i][i - 2] != Sep;
  }

  /**
   * `dirname` and `basename` split a path that `join` puts back together,
   * provided the path has no doubled separators.
   */
  lemma JoinDirnameBasename(p: string)
    requires NoDoubleSeparator(p)
    ensures Join(Dirname(p), Basename(p)) == p
  {
    var i := SlashEnd(p);
    if i == 0 {
      assert Dirname(p) == [] && Basename(p) == p;
    } else if i == 1 {
      assert p[..1] == [Sep];
      assert Dirname(p) == [Sep];
      assert |p| > 1 ==> p[1] != Sep;
      assert p == [Sep] + p[1..];
    } else {
      DirnameDropsLastSeparator(p);
      assert !IsAbsolute(Basename(p));
    }
  }

  /** Joining with an empty part first, then with a relative part, is joining with that part. */
  lemma JoinEmptyFirst(s: string, b: string)
    requires !IsAbsolute(b)
    ensures Join(Join(s, []), b) == Join(s, b)
  {
    if s == [] || s[|s| - 1] == Sep {
      assert s + [] == s;
    } else {
      var t := s + [] + [Sep];
      assert t[|t| - 1] == Sep;
      assert t + b == s + [Sep] + b;
    }
  }

  /**
   * Joining in two steps through a directory that does not end with a
   * separator gives the same path as joining once with the whole.
   */
  lemma JoinInTwoSteps(s: string, d: string, b: string)
    requires d != [] && !IsAbsolute(d) && d[|d| - 1] != Sep && !IsAbsolute(b)
    ensures Join(Join(s, d), b) == Join(s, d + [Sep] + b)
  {
    var db := d + [Sep] + b;
    assert db[0] == d[0];
    var sd := Join(s, d);
    assert sd[|sd| - 1] == d[|d| - 1];
    if s == [] || s[|s| - 1] == Sep {
      assert sd + [Sep] + b == s + db;
    } else {
      assert sd + [Sep] + b == s + [Sep] + db;
    }
  }

  /**
   * For a relative path `p` without doubled separators, joining `s` with the
   * directory of `p` and then with the base name of `p` gives the same path as
   * joining `s` with `p`: the directory is the one that holds the file.
   */
  lemma JoinThroughDirname(s: string, p: string)
    requires !IsAbsolute(p) && NoDoubleSeparator(p)
    ensures Join(Join(s, Dirname(p)), Basename(p)) == Join(s, p)
  {
    var i := SlashEnd(p);
    if i == 0 {
      assert Dirname(p) == [] && Basename(p) == p;
      JoinEmptyFirst(s, p);
    } else {
      assert i != 1;
      DirnameDropsLastSeparator(p);
      JoinInTwoSteps(s, Dirname(p), Basename(p));
    }
  }

  /** `dirname` strips every separator before the base name, not just one. */
  lemma DirnameStripsDoubledSeparator()
    ensures Dirname("a//b") == "a"
  {
    var p := "a//b";
    assert SlashEnd(p) == 3 by {
      assert p[3] != Sep && p[2] == Sep;
    }
    var r := Dirname(p);
    assert p[..3] == "a//" && !AllSeparators(p[..3]) by {
      assert p[..3][0] == 'a';
    }
    assert r == "a" by {
      assert 1 <= |r| <= 3 && r[0] == 'a';
      assert |r| == 1 by {
        assert !AllSeparators(r);
      }
    }
  }
}

/** The part of Python's `pathlib` (POSIX flavour, Python 3.12 rules) that the pipeline
    uses: `name`, `stem`, `suffix`, `parent`, the `/` operator, `with_name`, `with_stem`
    and `str()`. A path is what pathlib keeps: whether it starts at the root, and the
    components below it. */
module PurePaths {
  import opened Strings

  datatype Path = Path(absolute: bool, parts: seq<string>)

  /** A string pathlib keeps as one component: non-empty, not ".", no separator. */
  predicate IsComponent(s: string)
  {
    s != "" && s != "." && '/' !in s
  }

  /** A stem the pipeline writes in place of another one: a component without dots. */
  predicate IsTag(t: string)
  {
    IsComponent(t) && '.' !in t
  }

  /** `p.name`: the last component, "" for the root and for the empty path. */
  function Name(p: Path): string
  {
    if |p.parts| == 0 then "" else p.parts[|p.parts| - 1]
  }

  /** `p.parent`: the path without its last component (the root is its own parent). */
  function Parent(p: Path): Path
  {
    if |p.parts| == 0 then p else Path(p.absolute, p.parts[..|p.parts| - 1])
  }

  /** `p / s` for a single component `s`. */
  function JoinPath(p: Path, s: string): (r: Path)
    requires IsComponent(s)
    ensures Parent(r) == p && Name(r) == s && r.absolute == p.absolute
  {
    var r := Path(p.absolute, p.parts + [s]);
    assert r.parts[..|r.parts| - 1] == p.parts;
    r
  }

  /** The index of the last dot among the first `n` characters, or -1. */
  function LastDotBefore(name: string, n: nat): (i: int)
    requires n <= |name|
    ensures -1 <= i < n
  {
    if n == 0 then -1
    else if name[n - 1] == '.' then n - 1
    else LastDotBefore(name, n - 1)
  }

  /** `name.rfind('.')`. */
  function LastDot(name: string): (i: int)
    ensures -1 <= i < |name|
  {
    LastDotBefore(name, |name|)
  }

  lemma {:induction false} LastDotBeforeIsLast(name: string, n: nat)
    requires n <= |name|
    ensures LastDotBefore(name, n) >= 0 ==> name[LastDotBefore(name, n)] == '.'
    ensures forall j :: LastDotBefore(name, n) < j < n ==> name[j] != '.'
  {
    if n > 0 && name[n - 1] != '.' {
      LastDotBeforeIsLast(name, n - 1);
    }
  }

  /** `rfind` finds the last dot: one sits at the index found, none after it. */
  lemma LastDotIsLast(name: string)
    ensures LastDot(name) >= 0 ==> name[LastDot(name)] == '.'
    ensures forall j :: LastDot(name) < j < |name| ==> name[j] != '.'
  {
    LastDotBeforeIsLast(name, |name|);
  }

  /** Whether the name has a suffix: a dot that is neither the first nor the last character. */
  predicate HasSuffix(name: string)
  {
    0 < LastDot(name) < |name| - 1
  }

  /** `name[i:]`, character by character. */
  function TailFrom(name: string, i: nat): string
    requires i <= |name|
    decreases |name| - i
  {
    if i == |name| then "" else [name[i]] + TailFrom(name, i + 1)
  }

  lemma {:induction false} TailFromIsSlice(name: string, i: nat)
    requires i <= |name|
    ensures TailFrom(name, i) == name[i..]
    decreases |name| - i
  {
    if i < |name| {
      TailFromIsSlice(name, i + 1);
      assert name[i..] == [name[i]] + name[i + 1..];
    }
  }

  /** `suffix` of a name: from its last dot on, or "" (".bashrc", "a." and "a" have none). */
  function SuffixOf(name: string): string
  {
    if HasSuffix(name) then TailFrom(name, LastDot(name)) else ""
  }

  /** The suffix is the slice from the last dot. */
  lemma SuffixIsSlice(name: string)
    ensures SuffixOf(name) == if HasSuffix(name) then name[LastDot(name)..] else ""
  {
    if HasSuffix(name) {
      TailFromIsSlice(name, LastDot(name));
    }
  }

  /** `stem` of a name: what precedes its suffix. */
  function StemOf(name: string): string
  {
    if HasSuffix(name) then name[..LastDot(name)] else name
  }

  function Suffix(p: Path): string { SuffixOf(Name(p)) }

  function Stem(p: Path): string { StemOf(Name(p)) }

  /** `p.with_name(n)`; pathlib raises ValueError when `p` has no name or `n` is not a
      component, which callers rule out. */
  function WithName(p: Path, n: string): (r: Path)
    requires Name(p) != "" && IsComponent(n)
    ensures Parent(r) == Parent(p) && Name(r) == n && r.absolute == p.absolute
  {
    JoinPath(Parent(p), n)
  }

  /** `p.with_stem(s)`, which Python 3.12 defines as `p.with_name(s + p.suffix)`. */
  function WithStem(p: Path, stem: string): (r: Path)
    requires Name(p) != "" && IsComponent(stem + Suffix(p))
    ensures Parent(r) == Parent(p) && Name(r) == stem + Suffix(p) && r.absolute == p.absolute
  {
    WithName(p, stem + Suffix(p))
  }

  /** `str(p)`: a root path starts with the separator, and a path with a parent ends
      with the separator and its name. */
  function Render(p: Path): (r: string)
    ensures p.absolute ==> |r| > 0 && r[0] == '/'
    ensures |p.parts| > 0 && (p.absolute || |p.parts| > 1) ==> EndsWith(r, "/" + p.parts[|p.parts| - 1])
  {
    if p.absolute then
      if |p.parts| > 0 then RootedJoinEnds(p.parts); "/" + JoinWith(p.parts, '/')
      else "/" + JoinWith(p.parts, '/')
    else if |p.parts| == 0 then "."
    else JoinEndsWithLast(p.parts, '/'); JoinWith(p.parts, '/')
  }

  lemma RootedJoinEnds(parts: seq<string>)
    requires |parts| > 0
    ensures EndsWith("/" + JoinWith(parts, '/'), "/" + parts[|parts| - 1])
  {
    var whole := "/" + JoinWith(parts, '/');
    if |parts| == 1 {
      assert whole[|whole| - |"/" + parts[0]|..] == whole;
    } else {
      JoinEndsWithLast(parts, '/');
      EndsWithAppend("/", JoinWith(parts, '/'), "/" + parts[|parts| - 1]);
    }
  }

  /** Stem and suffix split the name, and a suffix is "" or a dot followed by at least one
      non-dot character. */
  lemma StemSuffixSplit(name: string)
    ensures StemOf(name) + SuffixOf(name) == name
    ensures SuffixOf(name) == "" || (|SuffixOf(name)| >= 2 && SuffixOf(name)[0] == '.' && '.' !in SuffixOf(name)[1..])
  {
    if HasSuffix(name) {
      var i := LastDot(name);
      LastDotIsLast(name);
      SuffixIsSlice(name);
      assert name[..i] + name[i..] == name;
      forall k | 0 <= k < |name[i..][1..]| ensures name[i..][1..][k] != '.' {
        assert name[i..][1..][k] == name[i + 1 + k];
      }
    }
  }

  /** The stem and suffix of a component are separator-free, and its stem is not empty. */
  lemma ComponentPieces(name: string)
    requires IsComponent(name)
    ensures StemOf(name) != "" && '/' !in StemOf(name) && '/' !in SuffixOf(name)
  {
    StemSuffixSplit(name);
    assert StemOf(name) + SuffixOf(name) == name;
    forall k | 0 <= k < |StemOf(name)| ensures StemOf(name)[k] != '/' {
      assert StemOf(name)[k] == name[k];
    }
    forall k | 0 <= k < |SuffixOf(name)| ensures SuffixOf(name)[k] != '/' {
      assert SuffixOf(name)[k] == name[|StemOf(name)| + k];
    }
  }

  /** Putting a tag in front of a suffix gives a name whose stem is the tag and whose
      suffix is that suffix again. */
  lemma {:induction false} TagThenSuffix(t: string, name: string)
    requires IsTag(t) && IsComponent(name)
    ensures IsComponent(t + SuffixOf(name))
    ensures StemOf(t + SuffixOf(name)) == t
    ensures SuffixOf(t + SuffixOf(name)) == SuffixOf(name)
  {
    StemSuffixSplit(name);
    ComponentPieces(name);
    var x := SuffixOf(name);
    if x == "" {
      assert t + x == t;
      LastDotIsLast(t);
    } else {
      NameFromPieces(t, "", x);
      assert t + "" + x == t + x;
    }
  }

  /** A suffix as pathlib reports one: a dot followed by at least one non-dot character. */
  predicate IsSuffix(ext: string)
  {
    |ext| >= 2 && ext[0] == '.' && '.' !in ext[1..]
  }

  /** Two pieces without a separator join into a string without one. */
  lemma NoSlashAppend(a: string, b: string)
    requires '/' !in a && '/' !in b
    ensures '/' !in a + b
  {
    forall k | 0 <= k < |a + b| ensures (a + b)[k] != '/' {
      if k < |a| {
        assert (a + b)[k] == a[k];
      } else {
        assert (a + b)[k] == b[k - |a|];
      }
    }
  }

  /** Appending a suffix to a non-empty string makes it the name's suffix, and the string
      its stem, whatever dots the string holds. */
  lemma NameWithSuffix(x: string, ext: string)
    requires x != "" && IsSuffix(ext)
    ensures SuffixOf(x + ext) == ext && StemOf(x + ext) == x
  {
    var n := x + ext;
    LastDotIsLast(n);
    SuffixIsSlice(n);
    forall j | |x| < j < |n| ensures n[j] != '.' {
      assert n[j] == ext[1..][j - |x| - 1];
    }
    assert n[|x|] == '.';
    assert LastDot(n) == |x|;
    assert n[..|x|] == x && n[|x|..] == ext;
  }

  /** A name built as a stem, a middle part and a suffix is a component whose suffix is
      that suffix and whose stem is the rest. */
  lemma NameFromPieces(stem: string, mid: string, ext: string)
    requires stem != "" && '/' !in stem && '/' !in mid && IsSuffix(ext) && '/' !in ext
    ensures IsComponent(stem + mid + ext)
    ensures SuffixOf(stem + mid + ext) == ext && StemOf(stem + mid + ext) == stem + mid
  {
    NoSlashAppend(stem, mid);
    NoSlashAppend(stem + mid, ext);
    NameWithSuffix(stem + mid, ext);
  }

  /** `with_stem(tag)` keeps the directory and the suffix and makes the tag the stem. */
  lemma WithStemTag(p: Path, t: string)
    requires IsComponent(Name(p)) && IsTag(t)
    ensures IsComponent(t + Suffix(p))
    ensures Parent(WithStem(p, t)) == Parent(p)
    ensures Stem(WithStem(p, t)) == t && Suffix(WithStem(p, t)) == Suffix(p)
  {
    TagThenSuffix(t, Name(p));
  }

  /** Re-tagging forgets the previous tag: `p.with_stem(a).with_stem(b) == p.with_stem(b)`. */
  lemma WithStemTwice(p: Path, a: string, b: string)
    requires IsComponent(Name(p)) && IsTag(a) && IsTag(b)
    ensures IsComponent(a + Suffix(p)) && IsComponent(b + Suffix(p))
    ensures IsComponent(Name(WithStem(p, a))) && IsComponent(b + Suffix(WithStem(p, a)))
    ensures WithStem(WithStem(p, a), b) == WithStem(p, b)
  {
    WithStemTag(p, a);
    WithStemTag(p, b);
  }
}

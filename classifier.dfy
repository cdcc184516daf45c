/**
 The classifier of the file organizer: the category a directory entry is sorted
 into is decided by the last suffix of its name (as `os.path.splitext` splits it),
 lowercased, looked up in the fixed `FILE_TYPES` table in declaration order, with
 "Others" as the fallback.
 */
module Classifier {

  /** Index of the last occurrence of `c` in `s`, or -1 (Python's `str.rfind`). */
  function LastIndexOf(s: string, c: char): (i: int)
    ensures -1 <= i < |s|
    ensures i >= 0 ==> s[i] == c
    ensures forall j :: i < j < |s| ==> s[j] != c
  {
    if |s| == 0 then -1
    else if s[|s| - 1] == c then |s| - 1
    else LastIndexOf(s[..|s| - 1], c)
  }

  predicate AllDots(s: string) {
    forall k :: 0 <= k < |s| ==> s[k] == '.'
  }

  /** A name "has a suffix" when some dot is preceded by a character that is not a dot. */
  ghost predicate HasSuffix(name: string) {
    exists i, j :: 0 <= i < j < |name| && name[i] != '.' && name[j] == '.'
  }

  /**
   `os.path.splitext` on a directory-entry name (such a name holds no path
   separator): the suffix runs from the last dot to the end, unless every
   character before that dot is itself a dot (leading dots do not count).
   */
  function SplitExt(name: string): (r: (string, string))
    ensures r.0 + r.1 == name
    ensures r.1 != [] ==> r.1[0] == '.' && '.' !in r.1[1..]
    ensures r.1 != [] <==> HasSuffix(name)
  {
    var dot := LastIndexOf(name, '.');
    if dot > 0 && !AllDots(name[..dot]) then
      (name[..dot], name[dot..])
    else
      (name, [])
  }

  function Extension(name: string): string {
    SplitExt(name).1
  }

  /**
   `str.lower` on one character, as far as it can matter here: ASCII capitals
   and the KELVIN SIGN (the one non-ASCII character whose lowercase is ASCII).
   Every other character is mapped to itself; Python maps some of them to other
   non-ASCII text, which no table entry contains, so the category is the same.
   */
  function LowerChar(c: char): (d: char)
    ensures (d == '.') <==> (c == '.')
    ensures !('A' <= d <= 'Z')
    ensures 'a' <= c <= 'z' ==> d == c
  {
    if 'A' <= c <= 'Z' then (c as int + 32) as char
    else if c == '\U{212A}' then 'k'
    else c
  }

  function Lower(s: string): (r: string)
    ensures |r| == |s|
    ensures forall i :: 0 <= i < |s| ==> r[i] == LowerChar(s[i])
  {
    if s == [] then [] else [LowerChar(s[0])] + Lower(s[1..])
  }

  const Others: string := "Others"

  /** `FILE_TYPES`, in declaration order. */
  const FileTypes: seq<(string, seq<string>)> := [
    ("Images", [".jpg", ".jpeg", ".png", ".gif", ".bmp"]),
    ("Videos", [".mp4", ".mkv", ".mov", ".avi"]),
    ("Documents", [".pdf", ".docx", ".xlsx", ".pptx", ".txt"]),
    ("Archives", [".zip", ".rar", ".7z", ".tar.gz"]),
    ("Music", [".mp3", ".wav", ".flac"]),
    ("Others", [])
  ]

  const CategoryNames: set<string> := set k | 0 <= k < |FileTypes| :: FileTypes[k].0

  /** Row `k` is the first row of the table whose extension list holds `ext`. */
  ghost predicate FirstMatch(ext: string, k: int) {
    0 <= k < |FileTypes| && ext in FileTypes[k].1 &&
    forall j :: 0 <= j < k ==> ext !in FileTypes[j].1
  }

  ghost predicate Unlisted(ext: string) {
    forall k :: 0 <= k < |FileTypes| ==> ext !in FileTypes[k].1
  }

  /** The generator `next(...)` from row `from` on, with "Others" as its default. */
  function LookupFrom(ext: string, from: nat): (r: string)
    requires from <= |FileTypes|
    requires forall j :: 0 <= j < from ==> ext !in FileTypes[j].1
    ensures (exists k :: FirstMatch(ext, k) && r == FileTypes[k].0) || (r == Others && Unlisted(ext))
    decreases |FileTypes| - from
  {
    if from == |FileTypes| then Others
    else if ext in FileTypes[from].1 then FileTypes[from].0
    else LookupFrom(ext, from + 1)
  }

  /** The category of an (already lowercased) suffix. */
  function Classify(ext: string): (r: string)
    ensures r in CategoryNames
    ensures (exists k :: FirstMatch(ext, k) && r == FileTypes[k].0) || (r == Others && Unlisted(ext))
  {
    LookupFrom(ext, 0)
  }

  /** The category folder a file of this name is moved into. */
  function Category(name: string): (c: string)
    ensures c in CategoryNames
    ensures var ext := Lower(Extension(name));
            (exists k :: FirstMatch(ext, k) && c == FileTypes[k].0) || (c == Others && Unlisted(ext))
  {
    Classify(Lower(Extension(name)))
  }

  /** No suffix is listed under two categories, so table order never decides a tie. */
  lemma ExtensionsDisjoint(ext: string, i: int, j: int)
    requires 0 <= i < j < |FileTypes|
    ensures !(ext in FileTypes[i].1 && ext in FileTypes[j].1)
  {
  }

  /** A suffix is classified under a named category exactly when that category lists it. */
  lemma {:induction false} ClassifyListed(ext: string, k: int)
    requires 0 <= k < |FileTypes| - 1
    ensures Classify(ext) == FileTypes[k].0 <==> ext in FileTypes[k].1
  {
    if Classify(ext) == FileTypes[k].0 {
      assert FileTypes[k].0 != Others;
      var m :| FirstMatch(ext, m) && Classify(ext) == FileTypes[m].0;
      assert m == k;
    }
    if ext in FileTypes[k].1 {
      forall j | 0 <= j < |FileTypes| && j != k
        ensures ext !in FileTypes[j].1
      {
        if j < k { ExtensionsDisjoint(ext, j, k); } else { ExtensionsDisjoint(ext, k, j); }
      }
      assert FirstMatch(ext, k);
    }
  }

  /** The fallback is chosen exactly for suffixes no row lists. */
  lemma {:induction false} ClassifyFallback(ext: string)
    ensures Classify(ext) == Others <==> Unlisted(ext)
  {
    if Classify(ext) == Others && !Unlisted(ext) {
      var k :| 0 <= k < |FileTypes| && ext in FileTypes[k].1;
      assert k < |FileTypes| - 1;
      ClassifyListed(ext, k);
      assert false;
    }
  }

  lemma LowerCharIdempotent(c: char)
    ensures LowerChar(LowerChar(c)) == LowerChar(c)
  {
  }

  lemma {:induction false} LowerIdempotent(s: string)
    ensures Lower(Lower(s)) == Lower(s)
  {
    var l := Lower(s);
    forall i | 0 <= i < |s|
      ensures Lower(l)[i] == l[i]
    {
      LowerCharIdempotent(s[i]);
    }
  }

  /** Lowercasing commutes with cutting a string in two. */
  lemma {:induction false} LowerSplit(s: string, d: int)
    requires 0 <= d <= |s|
    ensures Lower(s)[..d] == Lower(s[..d]) && Lower(s)[d..] == Lower(s[d..])
  {
    assert forall i :: 0 <= i < d ==> Lower(s)[..d][i] == LowerChar(s[..d][i]);
    assert forall i :: 0 <= i < |s| - d ==> Lower(s)[d..][i] == LowerChar(s[d..][i]);
  }

  lemma {:induction false} LastDotOfLower(s: string)
    ensures LastIndexOf(Lower(s), '.') == LastIndexOf(s, '.')
  {
    var l := Lower(s);
    var d, e := LastIndexOf(s, '.'), LastIndexOf(l, '.');
  }

  lemma {:induction false} AllDotsOfLower(s: string)
    ensures AllDots(Lower(s)) <==> AllDots(s)
  {
    if !AllDots(s) {
      var k :| 0 <= k < |s| && s[k] != '.';
      assert Lower(s)[k] != '.';
    }
  }

  /** Lowercasing keeps every dot where it was, so it commutes with splitting off the suffix. */
  lemma {:induction false} ExtensionOfLower(name: string)
    ensures Extension(Lower(name)) == Lower(Extension(name))
  {
    var l := Lower(name);
    var d := LastIndexOf(name, '.');
    LastDotOfLower(name);
    if d > 0 {
      LowerSplit(name, d);
      AllDotsOfLower(name[..d]);
      if AllDots(name[..d]) {
        assert Extension(l) == [] == Extension(name);
      } else {
        assert Extension(l) == l[d..];
        assert Extension(name) == name[d..];
      }
    } else {
      assert Extension(l) == [] == Extension(name);
    }
  }

  /** The category depends on the name only up to letter case. */
  lemma {:induction false} CategoryOfLower(name: string)
    ensures Category(Lower(name)) == Category(name)
  {
    ExtensionOfLower(name);
    LowerIdempotent(Extension(name));
  }

  lemma {:induction false} CategoryIgnoresCase(a: string, b: string)
    requires Lower(a) == Lower(b)
    ensures Category(a) == Category(b)
  {
    CategoryOfLower(a);
    CategoryOfLower(b);
  }

  /**
   The suffix holds one dot, at its start, and lowercasing keeps it that way;
   so ".tar.gz", whose fifth character is a dot, is never looked up.
   */
  lemma {:induction false} TarGzUnreachable(name: string)
    ensures Lower(Extension(name)) != ".tar.gz"
  {
    var e := Extension(name);
    if |e| == 7 {
      assert e[4] == e[1..][3];
      assert Lower(e)[4] != '.';
    }
  }

  /** A name is sorted into Archives only for the three single suffixes the table lists. */
  lemma {:induction false} ArchivesOnlySingleSuffix(name: string)
    ensures Category(name) == "Archives" <==> Lower(Extension(name)) in [".zip", ".rar", ".7z"]
  {
    TarGzUnreachable(name);
    ClassifyListed(Lower(Extension(name)), 3);
  }

  lemma SuffixAt(name: string, dot: nat)
    requires 0 < dot < |name| && name[dot] == '.' && name[0] != '.'
    requires forall j :: dot < j < |name| ==> name[j] != '.'
    ensures Extension(name) == name[dot..]
  {
    assert LastIndexOf(name, '.') == dot;
    assert name[..dot][0] != '.';
  }

  /** Lowercasing leaves a string alone when it leaves each of its characters alone. */
  lemma {:induction false} LowerFixed(s: string)
    requires forall i :: 0 <= i < |s| ==> LowerChar(s[i]) == s[i]
    ensures Lower(s) == s
  {
    assert forall i :: 0 <= i < |s| ==> Lower(s)[i] == s[i];
  }

  /*
   The scenario names: a.jpg, b.mp4 and c.xyz go to Images, Videos and Others.
   Each example chains three facts about literals: the suffix split off, its
   lowercase form, and its lookup, which is proved on its own.
   */

  lemma LookupJpg() ensures Classify(".jpg") == "Images" { ClassifyListed(".jpg", 0); }
  lemma LookupMp4() ensures Classify(".mp4") == "Videos" { ClassifyListed(".mp4", 1); }
  lemma LookupXyz() ensures Classify(".xyz") == Others { assert Unlisted(".xyz"); ClassifyFallback(".xyz"); }
  lemma LookupGz() ensures Classify(".gz") == Others { assert Unlisted(".gz"); ClassifyFallback(".gz"); }

  lemma ImagesExample()
    ensures Category("a.jpg") == "Images"
  {
    SuffixAt("a.jpg", 1);
    LowerFixed(".jpg");
    LookupJpg();
  }

  lemma VideosExample()
    ensures Category("b.mp4") == "Videos"
  {
    SuffixAt("b.mp4", 1);
    LowerFixed(".mp4");
    LookupMp4();
  }

  lemma OthersExample()
    ensures Category("c.xyz") == Others
  {
    SuffixAt("c.xyz", 1);
    LowerFixed(".xyz");
    LookupXyz();
  }

  /** An upper-case suffix lands where its lower-case spelling does. */
  lemma UpperCaseExample()
    ensures Category("a.JPG") == "Images"
  {
    CategoryIgnoresCase("a.JPG", "a.jpg");
    ImagesExample();
  }

  /** Only the last suffix counts: x.tar.gz is looked up as ".gz". */
  lemma TarGzExample()
    ensures Category("x.tar.gz") == Others
  {
    SuffixAt("x.tar.gz", 5);
    LowerFixed(".gz");
    LookupGz();
  }

  lemma NoSuffixOfDotfile() ensures Extension(".bashrc") == []
  {
    assert forall j :: 0 < j < 7 ==> ".bashrc"[j] != '.';
  }

  /** Leading dots do not start a suffix. */
  lemma DotfileExample()
    ensures Category(".bashrc") == Others
  {
    NoSuffixOfDotfile();
    ClassifyFallback([]);
  }
}

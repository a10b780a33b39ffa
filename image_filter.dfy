/** Which directory entries the upload command treats as screenshots, and the path it
    attaches for each of them. */
module ImageFilter {

  /** Lower-cases one character. Only ASCII letters are folded (Python's `str.lower`
      also folds other scripts). */
  function LowerChar(c: char): (r: char)
    ensures 'A' <= c <= 'Z' ==> 'a' <= r <= 'z' && r as int - c as int == 32
    ensures !('A' <= c <= 'Z') ==> r == c
  {
    if 'A' <= c <= 'Z' then (c as int + 32) as char else c
  }

  function Lower(s: string): (r: string)
    ensures |r| == |s|
    ensures forall t :: 0 <= t < |s| ==> r[t] == LowerChar(s[t])
  {
    if s == [] then [] else [LowerChar(s[0])] + Lower(s[1..])
  }

  /** `str.endswith`: s is some prefix followed by suffix. */
  predicate EndsWith(s: string, suffix: string)
    ensures EndsWith(s, suffix) <==> |suffix| <= |s| && s[..|s| - |suffix|] + suffix == s
  {
    |suffix| <= |s| && s[|s| - |suffix|..] == suffix
  }

  /** The test the command applies to each entry name: its lower-cased form ends in
      `.png`, `.jpg` or `.jpeg`. */
  predicate IsImageName(name: string)
    ensures IsImageName(name) ==> 4 <= |name|
  {
    var lowered := Lower(name);
    EndsWith(lowered, ".png") || EndsWith(lowered, ".jpg") || EndsWith(lowered, ".jpeg")
  }

  /** Independent, character-by-character reading of "name ends with ext, ignoring case"
      for a lower-case ext. */
  predicate EndsWithIgnoringCase(name: string, ext: string) {
    |ext| <= |name| &&
    forall t :: 0 <= t < |ext| ==> LowerChar(name[|name| - |ext| + t]) == ext[t]
  }

  /** Lower-casing and then testing the suffix is the same as comparing the tail of the
      name with the suffix one character at a time, ignoring case. */
  lemma LowerSuffix(name: string, ext: string)
    ensures EndsWith(Lower(name), ext) <==> EndsWithIgnoringCase(name, ext)
  {
    var l := Lower(name);
    if EndsWithIgnoringCase(name, ext) {
      var off := |name| - |ext|;
      assert forall t :: 0 <= t < |ext| ==> l[off..][t] == l[off + t];
    }
  }

  /** The image test in case-insensitive terms: an entry is kept exactly when its name
      ends with `.png`, `.jpg` or `.jpeg` in any mixture of upper and lower case. */
  lemma IsImageNameIgnoresCase(name: string)
    ensures IsImageName(name) <==>
      EndsWithIgnoringCase(name, ".png") ||
      EndsWithIgnoringCase(name, ".jpg") ||
      EndsWithIgnoringCase(name, ".jpeg")
  {
    LowerSuffix(name, ".png");
    LowerSuffix(name, ".jpg");
    LowerSuffix(name, ".jpeg");
  }

  /** The list comprehension over the directory listing: the entries that pass the image
      test, in listing order. Every kept entry came from the listing and is an image name,
      and every image name in the listing is kept. */
  function ImageFiles(entries: seq<string>): (r: seq<string>)
    ensures |r| <= |entries|
    ensures forall x :: x in r <==> x in entries && IsImageName(x)
  {
    if entries == [] then []
    else (if IsImageName(entries[0]) then [entries[0]] else []) + ImageFiles(entries[1..])
  }

  /** A listing with no image name in it yields nothing to upload. */
  lemma {:induction false} NoImageNames(entries: seq<string>)
    requires forall e :: e in entries ==> !IsImageName(e)
    ensures ImageFiles(entries) == []
  {
    if entries != [] {
      assert entries[0] in entries;
      NoImageNames(entries[1..]);
    }
  }

  /** Filtering a listing made of two parts gives the filtered first part followed by the
      filtered second part: the filter never reorders entries. */
  lemma {:induction false} ImageFilesAppend(a: seq<string>, b: seq<string>)
    ensures ImageFiles(a + b) == ImageFiles(a) + ImageFiles(b)
  {
    if a == [] {
      assert a + b == b;
    } else {
      assert (a + b)[1..] == a[1..] + b;
      ImageFilesAppend(a[1..], b);
    }
  }

  /** The filter neither loses nor duplicates an entry: each image name occurs in the result
      as often as in the listing, and any other name not at all. */
  lemma {:induction false} ImageFilesCount(entries: seq<string>, x: string)
    ensures multiset(ImageFiles(entries))[x] == if IsImageName(x) then multiset(entries)[x] else 0
  {
    if entries != [] {
      var e, rest := entries[0], entries[1..];
      var kept := if IsImageName(e) then [e] else [];
      assert ImageFiles(entries) == kept + ImageFiles(rest);
      assert multiset(ImageFiles(entries)) == multiset(kept) + multiset(ImageFiles(rest));
      assert multiset(entries) == multiset([e]) + multiset(rest) by {
        assert entries == [e] + rest;
      }
      ImageFilesCount(rest, x);
    }
  }

  /** A one-entry listing keeps its entry exactly when it is an image name. */
  lemma ImageFilesSingle(x: string)
    ensures ImageFiles([x]) == if IsImageName(x) then [x] else []
  {
    assert [x][1..] == [];
  }

  /** `a.png` is kept. */
  lemma PngKept()
    ensures ImageFiles(["a.png"]) == ["a.png"]
  {
    assert Lower("a.png") == "a.png";
    ImageFilesSingle("a.png");
  }

  /** `b.txt` is dropped. */
  lemma TextFileDropped()
    ensures ImageFiles(["b.txt"]) == []
  {
    assert Lower("b.txt") == "b.txt";
    ImageFilesSingle("b.txt");
  }

  /** `c.JPG` is kept: lower-casing turns it into `c.jpg`. */
  lemma UpperCaseJpgKept()
    ensures ImageFiles(["c.JPG"]) == ["c.JPG"]
  {
    assert Lower("c.JPG") == "c.jpg";
    ImageFilesSingle("c.JPG");
  }

  /** A folder holding `a.png`, `b.txt` and `c.JPG` yields `a.png` and `c.JPG`, in that order. */
  lemma SampleListing()
    ensures ImageFiles(["a.png", "b.txt", "c.JPG"]) == ["a.png", "c.JPG"]
  {
    var a, b, c := "a.png", "b.txt", "c.JPG";
    assert [a, b, c] == [a] + [b] + [c];
    ImageFilesAppend([a] + [b], [c]);
    ImageFilesAppend([a], [b]);
    PngKept();
    TextFileDropped();
    UpperCaseJpgKept();
  }

  /** `os.path.join(folder, name)` on POSIX: a name that starts with `/` replaces the folder;
      otherwise the name is appended to the folder, with one `/` between them unless the
      folder is empty or already ends in `/`. */
  function JoinPath(folder: string, name: string): (p: string)
    ensures |name| <= |p| <= |folder| + 1 + |name|
  {
    if |name| > 0 && name[0] == '/' then name
    else if folder == [] || folder[|folder| - 1] == '/' then folder + name
    else folder + "/" + name
  }

  /** A joined path always ends with the name. For a relative name it starts with the
      folder and has exactly one `/` between folder and name, unless the folder is empty
      or already ends in `/`. */
  lemma JoinPathShape(folder: string, name: string)
    ensures EndsWith(JoinPath(folder, name), name)
    ensures !(|name| > 0 && name[0] == '/') ==>
      var p := JoinPath(folder, name);
      |folder| <= |p| && p[..|folder|] == folder &&
      (if folder == [] || folder[|folder| - 1] == '/' then |p| == |folder| + |name|
       else |p| == |folder| + 1 + |name| && p[|folder|] == '/')
  {
  }

  /** Joining the sample folder `shots` with `a.png` gives `shots/a.png`. */
  lemma JoinSample()
    ensures JoinPath("shots", "a.png") == "shots/a.png"
    ensures JoinPath("shots/", "a.png") == "shots/a.png"
    ensures JoinPath("", "a.png") == "a.png"
  {
  }
}

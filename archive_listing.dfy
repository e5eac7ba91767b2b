/** The survey of a Sentinel-1 archive's member names
    (`check_sentinel1_structure` in `ml_pipeline/check_sar_files.py`): a
    histogram of file extensions built up in a dictionary, a listing of the
    first fifteen names, and the names mentioning measurement, annotation or
    calibration. */
module ArchiveListing {
  import opened Text

  /** `'.' in f`. */
  predicate Dotted(f: string) { '.' in f }

  /** `f.split('.')[-1].lower()`: the text after the last dot, lower-cased. */
  function Extension(f: string): string {
    var pieces := Split(f, '.');
    Lower(pieces[|pieces| - 1])
  }

  /** The `extensions` dictionary after the names of `files` have been
      counted in order. */
  function Counts(files: seq<string>): map<string, nat> {
    if files == [] then map[]
    else
      var m := Counts(files[..|files| - 1]);
      var f := files[|files| - 1];
      if Dotted(f) then
        var e := Extension(f);
        m[e := (if e in m then m[e] else 0) + 1]
      else m
  }

  /** The loop that fills the dictionary, one name at a time. */
  method ExtensionHistogram(files: seq<string>) returns (extensions: map<string, nat>)
    ensures extensions == Counts(files)
  {
    extensions := map[];
    var i := 0;
    while i < |files|
      invariant 0 <= i <= |files|
      invariant extensions == Counts(files[..i])
    {
      var f := files[i];
      if '.' in f {
        var ext := Extension(f);
        var previous := if ext in extensions then extensions[ext] else 0;
        extensions := extensions[ext := previous + 1];
      }
      assert files[..i + 1][..i] == files[..i];
      i := i + 1;
    }
    assert files[..i] == files;
  }

  /** Whether a name is dotted and has extension `e`. */
  function HasExtension(e: string): string -> bool {
    (f: string) => Dotted(f) && Extension(f) == e
  }

  /** Each key is the extension of some dotted name, and its count is the
      number of dotted names with that extension. */
  lemma {:induction false} CountsPerKey(files: seq<string>, e: string)
    ensures e in Counts(files) <==> |Filter(files, HasExtension(e))| > 0
    ensures e in Counts(files) ==> Counts(files)[e] == |Filter(files, HasExtension(e))|
  {
    if files != [] {
      CountsPerKey(files[..|files| - 1], e);
    }
  }

  /** A key is present exactly when some name in the list is dotted and has
      that extension. */
  lemma CountsKeys(files: seq<string>, e: string)
    ensures e in Counts(files) <==> exists f :: f in files && Dotted(f) && Extension(f) == e
  {
    CountsPerKey(files, e);
    var r := Filter(files, HasExtension(e));
    if e in Counts(files) {
      assert r[0] in r;
    }
  }

  /** The sum of the counts in a dictionary. */
  ghost function Total(m: map<string, nat>): nat
    decreases |m.Keys|
  {
    if m == map[] then 0
    else
      var k :| k in m;
      assert |(m - {k}).Keys| < |m.Keys| by { assert (m - {k}).Keys == m.Keys - {k}; }
      m[k] + Total(m - {k})
  }

  /** The sum may be taken with any key first. */
  lemma {:induction false} TotalRemove(m: map<string, nat>, k: string)
    requires k in m
    ensures Total(m) == m[k] + Total(m - {k})
    decreases |m.Keys|
  {
    var j :| j in m && Total(m) == m[j] + Total(m - {j});
    if j != k {
      assert (m - {j}).Keys == m.Keys - {j};
      assert (m - {k}).Keys == m.Keys - {k};
      TotalRemove(m - {j}, k);
      TotalRemove(m - {k}, j);
      assert m - {j} - {k} == m - {k} - {j};
    }
  }

  /** Adding one to a key's count, or adding the key with count one, adds
      one to the sum. */
  lemma TotalIncrement(m: map<string, nat>, e: string)
    ensures Total(m[e := (if e in m then m[e] else 0) + 1]) == Total(m) + 1
  {
    var m' := m[e := (if e in m then m[e] else 0) + 1];
    TotalRemove(m', e);
    assert m' - {e} == m - {e};
    if e in m {
      TotalRemove(m, e);
    } else {
      assert m - {e} == m;
    }
  }

  /** The counts sum to the number of dotted names. */
  lemma {:induction false} CountsTotal(files: seq<string>)
    ensures Total(Counts(files)) == |Filter(files, Dotted)|
  {
    if files != [] {
      var init, last := files[..|files| - 1], files[|files| - 1];
      CountsTotal(init);
      assert Filter(files, Dotted) == Filter(init, Dotted) + (if Dotted(last) then [last] else []);
      if Dotted(last) {
        var e := Extension(last);
        assert Counts(files) == Counts(init)[e := (if e in Counts(init) then Counts(init)[e] else 0) + 1];
        TotalIncrement(Counts(init), e);
      } else {
        assert Counts(files) == Counts(init);
      }
    }
  }

  /** The sample listing: the names shown, and the number in the
      "... and N more files" line when there is one. */
  method SampleFiles(files: seq<string>) returns (shown: seq<string>, more: Option<nat>)
    ensures shown == files[..Min(15, |files|)]
    ensures more.Some? <==> |files| > 15
    ensures more.Some? ==> more.value == |files| - 15
    ensures |shown| + more.GetOr(0) == |files|
  {
    shown := [];
    var sample := files[..Min(15, |files|)];
    for i := 0 to |sample|
      invariant shown == sample[..i]
    {
      shown := shown + [sample[i]];
    }
    if |files| > 15 {
      more := Some(|files| - 15);
    } else {
      more := None;
    }
  }

  /** Whether a name mentions `word`, ignoring the case of the name. */
  function Mentions(word: string): string -> bool {
    (f: string) => Contains(Lower(f), word)
  }

  /** The `measurement_files`, `annotation_files` and `calibration_files`
      comprehensions. */
  function Measurement(files: seq<string>): seq<string> { Filter(files, Mentions("measurement")) }
  function Annotation(files: seq<string>): seq<string> { Filter(files, Mentions("annotation")) }
  function Calibration(files: seq<string>): seq<string> { Filter(files, Mentions("calibration")) }

  /** A mention filter keeps exactly the names whose lower-cased form
      contains the word, keeps them in archive order (it distributes over
      concatenation), never lengthens the list, and cannot tell a name from
      its lower-cased form. */
  lemma MentionsSpec(files: seq<string>, more: seq<string>, word: string, f: string)
    ensures f in Filter(files, Mentions(word)) <==> f in files && Contains(Lower(f), word)
    ensures Filter(files + more, Mentions(word)) == Filter(files, Mentions(word)) + Filter(more, Mentions(word))
    ensures |Filter(files, Mentions(word))| <= |files|
    ensures Mentions(word)(Lower(f)) == Mentions(word)(f)
  {
    FilterAppend(files, more, Mentions(word));
    LowerIdempotent(f);
  }

  /** A name without upper-case letters is its own lower-cased form. */
  lemma LowerOfLower(s: string)
    requires forall i :: 0 <= i < |s| ==> !('A' <= s[i] <= 'Z')
    ensures Lower(s) == s
  {
  }

  /** A name that contains the word from position `i` on mentions it. */
  lemma MentionsFrom(name: string, word: string, i: nat)
    requires Lower(name) == name && i <= |name| && word <= name[i..]
    ensures Mentions(word)(name)
  {
  }

  /** The three lists may overlap: a lower-case name under a folder whose
      name starts with "annotation", for a file whose name starts with
      "calibration", is listed as both. */
  lemma OverlappingLists(folder: string, file: string)
    requires Lower(folder + file) == folder + file
    requires "annotation" <= folder && "calibration" <= file
    ensures folder + file in Annotation([folder + file])
    ensures folder + file in Calibration([folder + file])
  {
    ListedUnderBoth(folder, file, "annotation", "calibration");
  }

  /** A lower-case name whose folder part starts with one word and whose
      file part starts with another mentions both. */
  lemma ListedUnderBoth(folder: string, file: string, w1: string, w2: string)
    requires Lower(folder + file) == folder + file
    requires w1 <= folder && w2 <= file
    ensures folder + file in Filter([folder + file], Mentions(w1))
    ensures folder + file in Filter([folder + file], Mentions(w2))
  {
    var name := folder + file;
    WordsAt(folder, file, w1, w2);
    MentionsFrom(name, w1, 0);
    MentionsFrom(name, w2, |folder|);
  }

  /** Words starting the two halves start the joined name at 0 and at the
      length of the first half. */
  lemma WordsAt(a: string, b: string, w1: string, w2: string)
    requires w1 <= a && w2 <= b
    ensures w1 <= (a + b)[0..] && w2 <= (a + b)[|a|..]
  {
    assert (a + b)[0..] == a + b;
    assert (a + b)[|a|..] == b;
  }
}

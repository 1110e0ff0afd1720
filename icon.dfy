/**
 * The path rule of `convert_to_ico` and the sizes the converted icon holds.
 * Decoding, resampling and writing the ICO file belong to Pillow; the model
 * keeps only whether that work succeeds.
 */
module Icon {
  import opened Wrappers
  import opened Paths

  /** The edge lengths of the square images in the icon, largest first. */
  const IconSizes: seq<nat> := [256, 128, 64, 48, 32, 16]

  const ConvertedSuffix: string := "_converted.ico"

  /** `sizes=[(s, s) for s, _ in sizes]`: the size pairs handed to the ICO
      writer. */
  function SaveSizes(): (r: seq<(nat, nat)>)
    ensures |r| == 6
    ensures forall i | 0 <= i < |r| :: r[i].0 == r[i].1 == IconSizes[i]
    ensures forall i, j | 0 <= i < j < |r| :: r[i].0 > r[j].0
    ensures r[0] == (256, 256) && r[5] == (16, 16)
  {
    seq(|IconSizes|, i requires 0 <= i < |IconSizes| => (IconSizes[i], IconSizes[i]))
  }

  /** `path.lower().endswith('.ico')`. */
  predicate IsIco(path: string) {
    EndsWith(Lower(path), ".ico")
  }

  /** Where a converted icon is written: `os.path.join(dirname, stem +
      "_converted.ico")`. It lies next to the image, is named after the
      image's stem with `_converted.ico` appended, and is itself an icon
      path. */
  function ConvertedPath(imagePath: string): (p: string)
    ensures IsIco(p)
    ensures Dirname(p) == Dirname(imagePath)
    ensures Basename(p) == Stem(Basename(imagePath)) + ConvertedSuffix
  {
    ConvertedNameHasNoSeparator(imagePath);
    ConvertedSuffixEnds(Stem(Basename(imagePath)));
    JoinedIcon(Dirname(imagePath), Stem(Basename(imagePath)) + ConvertedSuffix);
    Join(Dirname(imagePath), Stem(Basename(imagePath)) + ConvertedSuffix)
  }

  lemma ConvertedSuffixEnds(s: string)
    ensures EndsWith(s + ConvertedSuffix, ConvertedSuffix)
  {
  }

  /** A file name ending in the converted suffix, joined to a directory. */
  lemma JoinedIcon(d: string, n: string)
    requires Canonical(d) && '/' !in n && EndsWith(n, ConvertedSuffix)
    ensures IsIco(Join(d, n)) && Dirname(Join(d, n)) == d && Basename(Join(d, n)) == n
  {
    JoinSplits(d, n);
    SuffixIsIco(Join(d, n), n);
  }

  lemma ConvertedNameHasNoSeparator(imagePath: string)
    ensures '/' !in Stem(Basename(imagePath)) + ConvertedSuffix
  {
    StemHasNoSeparator(imagePath);
    SuffixedHasNoSeparator(Stem(Basename(imagePath)));
  }

  lemma StemHasNoSeparator(imagePath: string)
    ensures '/' !in Stem(Basename(imagePath))
  {
    NoSeparatorInPrefix(Stem(Basename(imagePath)), Basename(imagePath));
  }

  lemma SuffixedHasNoSeparator(s: string)
    requires '/' !in s
    ensures '/' !in s + ConvertedSuffix
  {
    NoSeparatorInConcat(s, ConvertedSuffix);
  }

  lemma SuffixIsIco(r: string, n: string)
    requires EndsWith(n, ConvertedSuffix) && EndsWith(r, n)
    ensures IsIco(r)
  {
    assert r[|r| - 4..] == n[|n| - 4..] == ".ico";
    var l := Lower(r);
    assert l[|l| - 4..] == ".ico" by {
      forall j | |l| - 4 <= j < |l| ensures l[j] == r[j] {
        assert r[j] in ".ico";
      }
    }
  }

  /** `convert_to_ico(image_path)`: a path that already ends in `.ico`, in
      any letter case, is returned unchanged without any I/O; otherwise the
      image is converted when Pillow can open and save it (`converts`), and
      `None` is returned when it cannot. */
  function ConvertToIco(imagePath: string, converts: bool): (r: Option<string>)
    ensures r.Some? ==> IsIco(r.value)
    ensures r.None? <==> !IsIco(imagePath) && !converts
    ensures r.Some? && r.value != imagePath ==>
              Dirname(r.value) == Dirname(imagePath) && Basename(r.value) == Stem(Basename(imagePath)) + ConvertedSuffix
  {
    if IsIco(imagePath) then Some(imagePath)
    else if converts then Some(ConvertedPath(imagePath))
    else None
  }

  /** Normalising twice is normalising once, whatever Pillow would do the
      second time: the first result already ends in `.ico`. */
  lemma ConvertIdempotent(imagePath: string, converts: bool, again: bool)
    requires ConvertToIco(imagePath, converts).Some?
    ensures ConvertToIco(ConvertToIco(imagePath, converts).value, again) == ConvertToIco(imagePath, converts)
  {
  }

  /** An icon file is returned as it is. */
  lemma IcoUnchanged(imagePath: string, converts: bool)
    requires IsIco(imagePath)
    ensures ConvertToIco(imagePath, converts) == Some(imagePath)
  {
  }

  /** A raster image's icon differs from the image, since the image's path
      does not end in `.ico` but the icon's does. */
  lemma ConvertedIsNew(imagePath: string)
    requires !IsIco(imagePath)
    ensures ConvertedPath(imagePath) != imagePath
  {
  }
}

// Page title derived from the current path (hooks/usePageTitle.js).
module PageTitle {
  import opened Strings

  /** The non-empty pieces of the path between slashes (`split('/').filter(Boolean)`). */
  function Segments(path: string): (r: seq<string>)
    ensures forall k :: 0 <= k < |r| ==> r[k] != [] && '/' !in r[k]
  {
    SplitPiecesAvoid(path, '/');
    NonEmpty(SplitOn(path, "/"))
  }

  function NonEmpty(parts: seq<string>): (r: seq<string>)
    ensures forall k :: 0 <= k < |r| ==> r[k] != [] && r[k] in parts
    ensures forall p :: p in parts && p != [] ==> p in r
  {
    if parts == [] then []
    else if parts[0] == [] then NonEmpty(parts[1..])
    else [parts[0]] + NonEmpty(parts[1..])
  }

  lemma {:induction false} NonEmptyAppend(a: seq<string>, b: seq<string>)
    ensures NonEmpty(a + b) == NonEmpty(a) + NonEmpty(b)
    decreases |a|
  {
    if a == [] {
      assert a + b == b;
    } else {
      assert (a + b)[1..] == a[1..] + b;
      NonEmptyAppend(a[1..], b);
    }
  }

  /** `segment.replace(/[-_]/g, ' ')` */
  function Spaced(segment: string): (r: string)
    ensures |r| == |segment|
    ensures forall i :: 0 <= i < |r| ==>
              r[i] == (if segment[i] == '-' || segment[i] == '_' then ' ' else segment[i])
  {
    if segment == [] then []
    else [if segment[0] == '-' || segment[0] == '_' then ' ' else segment[0]] + Spaced(segment[1..])
  }

  /** `str.charAt(0).toUpperCase() + str.slice(1)` */
  function Capitalise(s: string): (r: string)
    ensures |r| == |s|
    ensures s != [] ==> r[0] == UpperChar(s[0]) && r[1..] == s[1..]
  {
    if s == [] then [] else [UpperChar(s[0])] + s[1..]
  }

  function Titles(segments: seq<string>): (r: seq<string>)
    ensures |r| == |segments|
    ensures forall k :: 0 <= k < |r| ==> r[k] == Capitalise(Spaced(segments[k]))
  {
    if segments == [] then [] else [Capitalise(Spaced(segments[0]))] + Titles(segments[1..])
  }

  /** The title shown for `pathname`. */
  function UsePageTitle(pathname: string): (title: string)
  {
    var joined := Join(Titles(Segments(pathname)), " - ");
    if joined == [] then "Home" else joined
  }

  /** Only the path's segments matter: a slash in front, behind, or doubled changes nothing. */
  lemma SegmentsSplitAtSlash(a: string, b: string)
    ensures Segments(a + "/" + b) == Segments(a) + Segments(b)
  {
    SplitAtSeparator(a, '/', b);
    NonEmptyAppend(SplitOn(a, "/"), SplitOn(b, "/"));
  }

  lemma LeadingSlashIgnored(a: string)
    ensures UsePageTitle("/" + a) == UsePageTitle(a)
  {
    SegmentsSplitAtSlash([], a);
    assert [] + "/" + a == "/" + a;
    assert Segments([]) == [];
  }

  lemma TrailingSlashIgnored(a: string)
    ensures UsePageTitle(a + "/") == UsePageTitle(a)
  {
    SegmentsSplitAtSlash(a, []);
    assert a + "/" + [] == a + "/";
    assert Segments([]) == [];
    assert Segments(a) + [] == Segments(a);
  }

  lemma DoubledSlashIgnored(a: string, b: string)
    ensures UsePageTitle(a + "//" + b) == UsePageTitle(a + "/" + b)
  {
    var sb := "/" + b;
    assert a + "/" + sb == a + "//" + b;
    SegmentsSplitAtSlash(a, sb);
    SegmentsSplitAtSlash([], b);
    assert [] + "/" + b == sb;
    assert Segments([]) == [];
    assert Segments(sb) == Segments(b);
    SegmentsSplitAtSlash(a, b);
    assert Segments(a + "//" + b) == Segments(a + "/" + b);
  }

  /** "Home" exactly when the path has no segments; otherwise the titled segments joined by " - ". */
  lemma HomeIffNoSegments(pathname: string)
    ensures UsePageTitle(pathname) == "Home" <==> Segments(pathname) == [] || Join(Titles(Segments(pathname)), " - ") == "Home"
    ensures Segments(pathname) != [] ==> UsePageTitle(pathname) == Join(Titles(Segments(pathname)), " - ")
  {
    var segs := Segments(pathname);
    if segs != [] {
      JoinNonEmpty(Titles(segs), " - ");
    }
  }

  lemma JoinNonEmpty(parts: seq<string>, sep: string)
    requires parts != [] && parts[0] != []
    ensures Join(parts, sep) != []
  {
    if |parts| > 1 {
      assert Join(parts, sep)[0] == parts[0][0];
    }
  }

  /** Neither "/" nor "_" survives into the title. */
  lemma {:induction false} NoSlashOrUnderscore(pathname: string)
    ensures '/' !in UsePageTitle(pathname) && '_' !in UsePageTitle(pathname)
  {
    var segs := Segments(pathname);
    var titles := Titles(segs);
    forall k | 0 <= k < |titles|
      ensures '/' !in titles[k] && '_' !in titles[k]
    {
      var sp := Spaced(segs[k]);
      assert '_' !in sp;
      assert '/' !in sp by {
        forall i | 0 <= i < |sp| ensures sp[i] != '/' {
          assert segs[k][i] in segs[k];
        }
      }
    }
    JoinAvoids(titles, " - ", '/');
    JoinAvoids(titles, " - ", '_');
  }

  lemma {:induction false} JoinAvoids(parts: seq<string>, sep: string, c: char)
    requires c !in sep
    requires forall k :: 0 <= k < |parts| ==> c !in parts[k]
    ensures c !in Join(parts, sep)
    decreases |parts|
  {
    if |parts| > 1 {
      JoinAvoids(parts[1..], sep, c);
    }
  }
}

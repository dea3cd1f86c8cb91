/** The version badge: the package version (or a fallback), shown as its first two
    dot-separated components and the third one as the build number. */
module BuildInfo {
  import opened Protocol

  const DEFAULT_VERSION := "0.1.1"
  const DEFAULT_BUILD := "1"

  /** The version shown: the package's version when it is a non-empty string. */
  function EffectiveVersion(packageVersion: Option<string>): (r: string)
    ensures r != ""
    ensures packageVersion.Some? && packageVersion.value != "" ==> r == packageVersion.value
    ensures packageVersion.None? || packageVersion.value == "" ==> r == DEFAULT_VERSION
  {
    match packageVersion
    case Some(v) => if v != "" then v else DEFAULT_VERSION
    case None => DEFAULT_VERSION
  }

  /** `parts.join('.')`: the first part comes first, followed by a dot when there are more. */
  function Join(parts: seq<string>): (r: string)
    ensures |parts| >= 1 ==> parts[0] <= r
    ensures |parts| >= 2 ==> |r| > |parts[0]| && r[|parts[0]|] == '.'
  {
    if |parts| == 0 then ""
    else if |parts| == 1 then parts[0]
    else parts[0] + "." + Join(parts[1..])
  }

  /** `s.split('.')`: the pieces between the dots, one more than there are dots, with empty
      pieces kept (so `""` splits into `[""]`). */
  function Split(s: string): (parts: seq<string>)
    ensures |parts| >= 1
    ensures forall i :: 0 <= i < |parts| ==> '.' !in parts[i]
    ensures Join(parts) == s
    decreases |s|
  {
    if s == [] then [""]
    else
      var rest := Split(s[1..]);
      if s[0] == '.' then [""] + rest
      else
        assert Join(rest) == s[1..];
        [[s[0]] + rest[0]] + rest[1..]
  }

  /** Splitting a dot-free piece, a dot and the rest yields that piece and the rest's parts. */
  lemma {:induction false} SplitAfterPiece(piece: string, rest: string)
    requires '.' !in piece
    ensures Split(piece + "." + rest) == [piece] + Split(rest)
    decreases |piece|
  {
    if piece == [] {
      assert piece + "." + rest == ['.'] + rest;
      assert (['.'] + rest)[1..] == rest;
    } else {
      var s := piece + "." + rest;
      assert s[1..] == piece[1..] + "." + rest;
      SplitAfterPiece(piece[1..], rest);
      assert [piece[0]] + piece[1..] == piece;
    }
  }

  /** A dot-free string splits into itself. */
  lemma {:induction false} SplitWithoutDot(s: string)
    requires '.' !in s
    ensures Split(s) == [s]
    decreases |s|
  {
    if s != [] {
      SplitWithoutDot(s[1..]);
      assert [s[0]] + s[1..] == s;
    }
  }

  lemma JoinTwo(a: string, b: string)
    ensures Join([a, b]) == a + "." + b
  {
    assert [a, b][1..] == [b];
  }

  /** The build number: the third component, or the default when it is missing or empty. */
  function BuildNumber(version: string): (r: string)
    ensures r != "" && '.' !in r
  {
    var parts := Split(version);
    if |parts| > 2 && parts[2] != "" then parts[2] else DEFAULT_BUILD
  }

  /** The version label: the first two components joined by a dot. It is a prefix of the
      version that splits back into those components, and the whole version when the
      version has at most one dot. */
  function DisplayVersion(version: string): (r: string)
    ensures r <= version
    ensures var parts := Split(version);
            Split(r) == parts[..if |parts| < 2 then |parts| else 2]
    ensures |Split(version)| <= 2 ==> r == version
  {
    var parts := Split(version);
    LeadingComponents(version);
    Join(parts[..if |parts| < 2 then |parts| else 2])
  }

  /** Two dot-free pieces joined by a dot split back into those two pieces. */
  lemma SplitTwo(a: string, b: string)
    requires '.' !in a && '.' !in b
    ensures Split(a + "." + b) == [a, b]
  {
    SplitAfterPiece(a, b);
    SplitWithoutDot(b);
  }

  /** Joining three or more parts starts with the first two joined. */
  lemma JoinLonger(parts: seq<string>)
    requires |parts| > 2
    ensures Join(parts) == (parts[0] + "." + parts[1]) + ("." + Join(parts[2..]))
  {
    var a, b, c := parts[0], parts[1], Join(parts[2..]);
    assert parts[1..][1..] == parts[2..] && parts[1..][0] == b;
    assert Join(parts[1..]) == b + "." + c;
    assert Join(parts) == a + "." + (b + "." + c);
  }

  /** The first two components joined by a dot are a prefix of the version that splits back
      into them, and the whole version when it has at most one dot. */
  lemma LeadingComponents(version: string)
    ensures var parts := Split(version);
            var shown := Join(parts[..if |parts| < 2 then |parts| else 2]);
            && shown <= version
            && Split(shown) == parts[..if |parts| < 2 then |parts| else 2]
            && (|parts| <= 2 ==> shown == version)
  {
    var parts := Split(version);
    var shown := Join(parts[..if |parts| < 2 then |parts| else 2]);
    if |parts| >= 2 {
      assert parts[..2] == [parts[0], parts[1]];
      JoinTwo(parts[0], parts[1]);
      assert shown == parts[0] + "." + parts[1];
      assert '.' !in parts[0] && '.' !in parts[1];
      SplitTwo(parts[0], parts[1]);
      if |parts| > 2 {
        JoinLonger(parts);
        var rest := "." + Join(parts[2..]);
        assert version == shown + rest;
        assert (shown + rest)[..|shown|] == shown;
      } else {
        assert parts == [parts[0], parts[1]];
        JoinTwo(parts[0], parts[1]);
      }
    } else {
      assert parts[..1] == parts;
      assert '.' !in parts[0];
      SplitWithoutDot(parts[0]);
    }
  }

  /** A `major.minor.build` version with dot-free components shows `major.minor` and build
      `build`, or build `1` when that component is empty. */
  lemma ThreeComponents(major: string, minor: string, build: string)
    requires '.' !in major && '.' !in minor && '.' !in build
    ensures Split(major + "." + minor + "." + build) == [major, minor, build]
    ensures DisplayVersion(major + "." + minor + "." + build) == major + "." + minor
    ensures BuildNumber(major + "." + minor + "." + build) == if build == "" then DEFAULT_BUILD else build
  {
    var v := major + "." + minor + "." + build;
    var tail := minor + "." + build;
    assert v == major + "." + tail;
    SplitAfterPiece(major, tail);
    SplitAfterPiece(minor, build);
    SplitWithoutDot(build);
    var parts := Split(v);
    assert parts == [major] + ([minor] + [build]);
    assert parts[..2] == [major, minor];
    JoinTwo(major, minor);
  }

  /** A version with fewer than three components has the default build number. */
  lemma FewerThanThree(major: string, minor: string)
    requires '.' !in major && '.' !in minor
    ensures BuildNumber(major) == DEFAULT_BUILD
    ensures BuildNumber(major + "." + minor) == DEFAULT_BUILD
  {
    SplitWithoutDot(major);
    SplitTwo(major, minor);
  }

  /** Components after the third do not change the build number. */
  lemma MoreThanThree(major: string, minor: string, build: string, rest: string)
    requires '.' !in major && '.' !in minor && '.' !in build
    ensures BuildNumber(major + "." + minor + "." + build + "." + rest)
            == if build == "" then DEFAULT_BUILD else build
  {
    var tail := build + "." + rest;
    var mid := minor + "." + tail;
    assert major + "." + minor + "." + build + "." + rest == major + "." + mid;
    SplitAfterPiece(major, mid);
    SplitAfterPiece(minor, tail);
    SplitAfterPiece(build, rest);
  }

  /** The default version shows as `0.1`, build `1`. */
  lemma DefaultVersionDisplay()
    ensures DisplayVersion(EffectiveVersion(None)) == "0.1"
    ensures BuildNumber(EffectiveVersion(None)) == "1"
  {
    ThreeComponents("0", "1", "1");
    assert "0" + "." + "1" + "." + "1" == DEFAULT_VERSION;
  }
}

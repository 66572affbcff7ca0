/**
  The helpers the actions share: the labels every child object carries, the
  AtlasMap image and version, and the health-probe path, which depends on
  the Spring Boot generation the AtlasMap version ships.
*/
module ActionUtils {
  import opened Wrappers
  import opened Errors
  import opened AtlasMapTypes
  import opened GoStrings
  import opened Config
  import opened Util

  /** Spring Boot 1 serves its health check here (AtlasMap before 1.43). */
  const SpringBoot1ProbePath: string := "/management/health"
  /** Spring Boot 2 serves its health check here. */
  const SpringBoot2ProbePath: string := "/actuator/health"

  const NameLabel: string := "atlasmap.io/name"
  const VersionLabel: string := "atlasmap.io/version"
  const OperatorVersionLabel: string := "atlasmap.io/operator.version"

  /** atlasMapVersion: `spec.version`, or the default version when it is empty. */
  function AtlasMapVersion(cr: AtlasMap): (version: string)
    ensures version != ""
    ensures cr.spec.version != "" ==> version == cr.spec.version
    ensures cr.spec.version == "" ==> version == DefaultVersion
  {
    if |cr.spec.version| == 0 then DefaultVersion else cr.spec.version
  }

  /** atlasMapLabels: the CR's name, its AtlasMap version and the operator version. */
  function AtlasMapLabels(cr: AtlasMap): (labels: map<string, string>)
    ensures labels.Keys == {NameLabel, VersionLabel, OperatorVersionLabel}
    ensures labels[NameLabel] == cr.Name()
    ensures labels[VersionLabel] == AtlasMapVersion(cr)
    ensures labels[OperatorVersionLabel] == DefaultOperatorVersion
  {
    map[NameLabel := cr.Name(), VersionLabel := AtlasMapVersion(cr), OperatorVersionLabel := DefaultOperatorVersion]
  }

  /**
    atlasMapImage: the default repository, tagged with the default version
    when `spec.version` is empty and with `spec.version` otherwise; that is,
    tagged with the AtlasMap version in both cases.
  */
  function AtlasMapImage(cr: AtlasMap): (image: string)
    ensures image == ImageName(DefaultAtlasMapImage, AtlasMapVersion(cr))
  {
    if |cr.spec.version| == 0 then ImageName(DefaultAtlasMapImage, DefaultVersion)
    else ImageName(DefaultAtlasMapImage, cr.spec.version)
  }

  /** The image names the default repository, and its tag is the AtlasMap version. */
  lemma AtlasMapImageSplits(cr: AtlasMap)
    ensures Split(AtlasMapImage(cr), ':') == [DefaultAtlasMapImage] + Split(AtlasMapVersion(cr), ':')
  {
    ImageNameSplits(DefaultAtlasMapImage, AtlasMapVersion(cr));
  }

  /**
    atlasMapProbePath: a version with at least two dot-separated parts whose
    first two parse as integers `major` and `minor` selects the Spring Boot 1
    path when major is 1 and minor below 43; an empty version and a version
    without a dot select the Spring Boot 2 path; a first or second part that
    is not an integer is an error.
  */
  function AtlasMapProbePath(cr: AtlasMap): (r: Result<string, Error>)
    ensures r.Ok? ==> r.value == SpringBoot1ProbePath || r.value == SpringBoot2ProbePath
    ensures r.Err? || r.value == SpringBoot1ProbePath ==> '.' in cr.spec.version
    ensures r.Err? ==> r.error.InvalidNumber?
  {
    if cr.spec.version != "" then
      var parts := Split(cr.spec.version, '.');
      if |parts| > 1 then
        match Atoi(parts[0])
        case None => Err(InvalidNumber(parts[0]))
        case Some(major) =>
          match Atoi(parts[1])
          case None => Err(InvalidNumber(parts[1]))
          case Some(minor) =>
            if major == 1 && minor < 43 then Ok(SpringBoot1ProbePath) else Ok(SpringBoot2ProbePath)
      else Ok(SpringBoot2ProbePath)
    else Ok(SpringBoot2ProbePath)
  }

  /** The path a parsed release `major.minor` selects. */
  function ProbePathFor(major: int, minor: int): string
  {
    if major == 1 && minor < 43 then SpringBoot1ProbePath else SpringBoot2ProbePath
  }

  /** What follows `major.minor` in a version: nothing, or a further dot-separated part. */
  predicate ReleaseTail(rest: string)
  {
    rest == [] || rest[0] == '.'
  }

  lemma DigitsHaveNoDot(n: nat)
    ensures '.' !in FormatNat(n)
  {
  }

  /** Split of `a.b<rest>` with dot-free `a` and `b`: they are the first two parts. */
  lemma SplitTwo(a: string, b: string, rest: string)
    requires '.' !in a && '.' !in b && ReleaseTail(rest)
    ensures var parts := Split(a + "." + b + rest, '.');
      |parts| > 1 && parts[0] == a && parts[1] == b
  {
    var t := b + rest;
    assert a + "." + b + rest == a + "." + t;
    SplitHead(a, t);
    SplitSecond(b, rest);
  }

  lemma SplitSecond(b: string, rest: string)
    requires '.' !in b && ReleaseTail(rest)
    ensures Split(b + rest, '.')[0] == b
  {
    if rest == [] {
      assert b + rest == b;
    } else {
      assert b + rest == b + "." + rest[1..];
      SplitHead(b, rest[1..]);
    }
  }

  /** A dot-free first part, a dot and a remainder: the part comes off first. */
  lemma SplitHead(a: string, t: string)
    requires '.' !in a
    ensures Split(a + "." + t, '.') == [a] + Split(t, '.')
  {
    assert a + "." + t == a + ['.'] + t;
    SplitCons(a, '.', t);
  }

  /** Split of `major.minor<rest>`: the two numbers come first, whatever follows. */
  lemma SplitRelease(major: nat, minor: nat, rest: string)
    requires ReleaseTail(rest)
    ensures var parts := Split(FormatNat(major) + "." + FormatNat(minor) + rest, '.');
      |parts| > 1 && parts[0] == FormatNat(major) && parts[1] == FormatNat(minor)
  {
    DigitsHaveNoDot(major);
    DigitsHaveNoDot(minor);
    SplitTwo(FormatNat(major), FormatNat(minor), rest);
  }

  /**
    A version `major.minor`, optionally followed by further parts, selects the
    path by its major and minor numbers alone; the parts after the second are
    ignored.
  */
  lemma ProbePathOfRelease(cr: AtlasMap, major: nat, minor: nat, rest: string)
    requires major <= MaxInt64 && minor <= MaxInt64 && ReleaseTail(rest)
    requires cr.spec.version == FormatNat(major) + "." + FormatNat(minor) + rest
    ensures AtlasMapProbePath(cr) == Ok(ProbePathFor(major, minor))
  {
    SplitRelease(major, minor, rest);
    AtoiFormatNat(major);
    AtoiFormatNat(minor);
  }

  /** A version without a dot (a tag such as "latest") selects Spring Boot 2. */
  lemma ProbePathWithoutDot(cr: AtlasMap)
    requires '.' !in cr.spec.version
    ensures AtlasMapProbePath(cr) == Ok(SpringBoot2ProbePath)
  {
  }

  /** A first part that is not an integer is reported as the error. */
  lemma ProbePathBadMajor(cr: AtlasMap, first: string, rest: string)
    requires '.' !in first && Atoi(first).None?
    requires cr.spec.version == first + "." + rest
    ensures AtlasMapProbePath(cr) == Err(InvalidNumber(first))
  {
    assert cr.spec.version == first + ['.'] + rest;
    SplitCons(first, '.', rest);
  }

  /** A second part that is not an integer, after an integer first part, is reported as the error. */
  lemma ProbePathBadMinor(cr: AtlasMap, first: string, second: string, rest: string)
    requires '.' !in first && Atoi(first).Some?
    requires '.' !in second && Atoi(second).None? && ReleaseTail(rest)
    requires cr.spec.version == first + "." + second + rest
    ensures AtlasMapProbePath(cr) == Err(InvalidNumber(second))
  {
    SplitTwo(first, second, rest);
  }

  /** The last Spring Boot 1 release line. */
  lemma ProbePathExample1_42(cr: AtlasMap)
    requires cr.spec.version == "1.42.3"
    ensures AtlasMapProbePath(cr) == Ok(SpringBoot1ProbePath)
  {
    assert FormatNat(1) == "1" && FormatNat(42) == "42";
    assert "1.42.3" == FormatNat(1) + "." + FormatNat(42) + ".3";
    ProbePathOfRelease(cr, 1, 42, ".3");
  }

  /** The first Spring Boot 2 release. */
  lemma ProbePathExample1_43(cr: AtlasMap)
    requires cr.spec.version == "1.43"
    ensures AtlasMapProbePath(cr) == Ok(SpringBoot2ProbePath)
  {
    assert FormatNat(1) == "1" && FormatNat(43) == "43";
    assert "1.43" == FormatNat(1) + "." + FormatNat(43) + "";
    ProbePathOfRelease(cr, 1, 43, "");
  }

  /** A later major version. */
  lemma ProbePathExample2_0(cr: AtlasMap)
    requires cr.spec.version == "2.0.0"
    ensures AtlasMapProbePath(cr) == Ok(SpringBoot2ProbePath)
  {
    assert FormatNat(2) == "2" && FormatNat(0) == "0";
    assert "2.0.0" == FormatNat(2) + "." + FormatNat(0) + ".0";
    ProbePathOfRelease(cr, 2, 0, ".0");
  }

  /**
    The default tag "latest", `abc.def`, whose first part is no number, and
    `1.x`, whose second part is no number.
  */
  lemma ProbePathTagExamples(a: AtlasMap, b: AtlasMap, d: AtlasMap)
    requires a.spec.version == "latest" && b.spec.version == "abc.def" && d.spec.version == "1.x"
    ensures AtlasMapProbePath(a) == Ok(SpringBoot2ProbePath)
    ensures AtlasMapProbePath(b) == Err(InvalidNumber("abc"))
    ensures AtlasMapProbePath(d) == Err(InvalidNumber("x"))
  {
    ProbePathWithoutDot(a);
    assert "abc.def" == "abc" + "." + "def";
    AtoiRejectsNonDigit("abc", 1);
    ProbePathBadMajor(b, "abc", "def");
    assert FormatNat(1) == "1";
    AtoiFormatNat(1);
    assert "1.x" == "1" + "." + "x" + "";
    ProbePathBadMinor(d, "1", "x", "");
  }

  /** With an empty version the image is the default image, tagged "latest". */
  lemma DefaultImageExample(cr: AtlasMap)
    requires cr.spec.version == ""
    ensures AtlasMapImage(cr) == "docker.io/atlasmap/atlasmap:latest"
    ensures AtlasMapProbePath(cr) == Ok(SpringBoot2ProbePath)
  {
  }

  /** A version "1.43" tags the default repository with it. */
  lemma VersionedImageExample(cr: AtlasMap)
    requires cr.spec.version == "1.43"
    ensures AtlasMapImage(cr) == "docker.io/atlasmap/atlasmap:1.43"
  {
  }
}

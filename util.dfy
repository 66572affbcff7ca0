/**
  Pure helpers of the controller: ingress host name, image reference,
  console-link name and display title, and the OpenShift 4.3+ decision.
*/
module Util {
  import opened Wrappers
  import opened AtlasMapTypes
  import opened GoStrings

  /** The Ingress host: `spec.routeHostName` when set, else `<name>-<namespace>`. */
  function GetIngressHostNameFor(cr: AtlasMap): (host: string)
    ensures cr.spec.routeHostName != "" ==> host == cr.spec.routeHostName
    ensures cr.spec.routeHostName == "" ==> host == cr.Name() + "-" + cr.Namespace()
  {
    if |cr.spec.routeHostName| == 0 then cr.Name() + "-" + cr.Namespace() else cr.spec.routeHostName
  }

  /** An image reference `<image>:<tag>`. */
  function ImageName(image: string, tag: string): string
  {
    image + ":" + tag
  }

  /** The reference is the repository, a ':' and the tag, in that order. */
  lemma ImageNameParts(image: string, tag: string)
    ensures var r := ImageName(image, tag);
      |r| == |image| + 1 + |tag| && r[..|image|] == image && r[|image|] == ':' && r[|image| + 1..] == tag
  {
  }

  /** When the repository has no ':', the reference splits back into repository and tag. */
  lemma ImageNameSplits(image: string, tag: string)
    requires ':' !in image
    ensures Split(ImageName(image, tag), ':') == [image] + Split(tag, ':')
  {
    SplitCons(image, ':', tag);
  }

  /** The cluster-scoped ConsoleLink's name: `<name>-<namespace>`. */
  function ConsoleLinkName(cr: AtlasMap): (name: string)
    ensures name == cr.Name() + "-" + cr.Namespace()
  {
    cr.Name() + "-" + cr.Namespace()
  }

  const ProductName: string := "atlasmap"
  const LinkTextPrefix: string := "AtlasMap - "

  /** The words of the title: the name after the four rewriting steps, before Title. */
  function LinkWords(name: string): string
  {
    TrimSuffix(TrimPrefix(ReplaceAll(ToLower(name), '-', ' '), ProductName), ProductName)
  }

  /**
    The ConsoleLink display text: "AtlasMap - " and the CR name lower-cased,
    dashes made spaces, one leading and one trailing "atlasmap" removed,
    title-cased and trimmed.
  */
  function ConsoleLinkText(cr: AtlasMap): string
  {
    LinkTextPrefix + TrimSpace(Title(LinkWords(cr.Name())))
  }

  /**
    The link text starts with "AtlasMap - "; what follows has no dash, no
    space at either end and is no longer than the name.
  */
  lemma ConsoleLinkTextShape(cr: AtlasMap)
    ensures LinkTextPrefix <= ConsoleLinkText(cr)
    ensures var rest := ConsoleLinkText(cr)[|LinkTextPrefix|..];
      && (rest != [] ==> !IsSpace(rest[0]) && !IsSpace(rest[|rest| - 1]))
      && |rest| <= |cr.Name()|
      && '-' !in rest
  {
    var rest := TrimSpace(Title(LinkWords(cr.Name())));
    LinkWordsFacts(cr.Name());
    TitleTrimKeepsNoDash(LinkWords(cr.Name()));
    assert ConsoleLinkText(cr)[|LinkTextPrefix|..] == rest;
  }

  lemma LinkWordsFacts(name: string)
    ensures '-' !in LinkWords(name) && |LinkWords(name)| <= |name|
  {
    var r := ReplaceAll(ToLower(name), '-', ' ');
    ReplaceAllAt(ToLower(name), '-', ' ');
    assert '-' !in r by {
      forall k | 0 <= k < |r| ensures r[k] != '-' { }
    }
    var p := TrimPrefix(r, ProductName);
    assert p == r[|r| - |p|..];
    assert '-' !in p;
    var q := TrimSuffix(p, ProductName);
    assert q == p[..|q|];
    assert '-' !in q;
  }

  lemma TitleTrimKeepsNoDash(words: string)
    requires '-' !in words
    ensures '-' !in TrimSpace(Title(words)) && |TrimSpace(Title(words))| <= |words|
  {
    TitleKeepsNoDash(words);
    TrimSpaceKeepsAbsent(Title(words), '-');
  }

  lemma TitleKeepsNoDash(words: string)
    requires '-' !in words
    ensures '-' !in Title(words)
  {
    var t := Title(words);
    TitleAt(words);
    forall k | 0 <= k < |t| ensures t[k] != '-' {
      assert words[k] != '-';
    }
  }

  lemma TrimSpaceKeepsAbsent(t: string, c: char)
    requires c !in t
    ensures c !in TrimSpace(t) && |TrimSpace(t)| <= |t|
  {
    var rest := TrimSpace(t);
    var i := LeadingSpace(t);
    assert rest == t[i..i + |rest|];
  }

  // -----------------------------------------------------------------------
  // The OpenShift version decision.  Discovering the version is a call to
  // the cluster; the model takes its outcome as input.

  /**
    A parsed semantic version; `prerelease` is the part after '-' (empty
    for a release).  Build metadata plays no part in any comparison and is
    not kept.
  */
  datatype SemVer = SemVer(major: nat, minor: nat, patch: nat, prerelease: string)

  /** What asking the cluster for its ClusterVersion yielded. */
  datatype VersionLookup =
    | VersionReported(version: SemVer)
      /** The ClusterVersion API does not exist (OpenShift 3). */
    | VersionApiMissing
      /** Any other failure, including a version string that does not parse. */
    | VersionUnavailable

  /** getClusterVersionSemVer: a missing API means OpenShift 3; other failures, no version. */
  function ClusterVersion(lookup: VersionLookup): (v: Option<SemVer>)
    ensures lookup.VersionApiMissing? ==> v == Some(SemVer(3, 0, 0, ""))
    ensures v.None? <==> lookup.VersionUnavailable?
  {
    match lookup
    case VersionReported(version) => Some(version)
    case VersionApiMissing => Some(SemVer(3, 0, 0, ""))
    case VersionUnavailable => None
  }

  /** Precedence of the release parts (major, minor, patch): -1, 0 or 1. */
  function Compare(a: SemVer, b: SemVer): int
  {
    if a.major != b.major then (if a.major < b.major then -1 else 1)
    else if a.minor != b.minor then (if a.minor < b.minor then -1 else 1)
    else if a.patch != b.patch then (if a.patch < b.patch then -1 else 1)
    else 0
  }

  /**
    The constraint ">= 4.3" of the semver library: a version with a
    prerelease part never satisfies a constraint that has none; a release
    satisfies it when its release parts are not below 4.3.0.
  */
  predicate AtLeast43(v: SemVer)
  {
    v.prerelease == "" && Compare(v, SemVer(4, 3, 0, "")) >= 0
  }

  /** IsOpenShift43Plus: a version is known and it satisfies the constraint ">= 4.3". */
  function IsOpenShift43Plus(lookup: VersionLookup): (r: bool)
    ensures r <==> exists v :: ClusterVersion(lookup) == Some(v) && AtLeast43(v)
  {
    match ClusterVersion(lookup)
    case None => false
    case Some(v) => AtLeast43(v)
  }

  /**
    ">= 4.3" holds for a release whose major version is above 4, or is 4
    with a minor of at least 3; the patch never matters, and a prerelease
    such as 4.6.0-rc.1 never qualifies.
  */
  lemma OpenShift43PlusByVersion(v: SemVer)
    ensures IsOpenShift43Plus(VersionReported(v)) <==>
      v.prerelease == "" && (v.major > 4 || (v.major == 4 && v.minor >= 3))
  {
  }

  /** A cluster without the ClusterVersion API (OpenShift 3) gets no console link. */
  lemma OpenShift3IsNot43Plus()
    ensures !IsOpenShift43Plus(VersionApiMissing) && !IsOpenShift43Plus(VersionUnavailable)
  {
  }
}

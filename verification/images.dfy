/** The version-to-image list of a HypervisorCluster: its admission, the upgrade preflight, and provisioning. */
module Images {
  import opened Common
  import opened Admission

  type Version = string

  datatype Image = Image(version: Version, path: string)

  /** The path of the first image for a version. */
  function FirstPath(images: seq<Image>, version: Version): (r: Option<string>)
    ensures r.Some? <==> exists image :: image in images && image.version == version
    ensures r.Some? ==> Image(version, r.value) in images
  {
    if images == [] then None
    else if images[0].version == version then Some(images[0].path)
    else
      assert forall image | image in images :: image == images[0] || image in images[1..];
      FirstPath(images[1..], version)
  }

  /** The image a Machine boots: the provider's default without a version, otherwise the first registered for it. */
  function BaseImage(images: seq<Image>, fallback: string, version: Version): Option<string> {
    if version == "" then Some(fallback) else FirstPath(images, version)
  }

  method ResolveBaseImage(images: seq<Image>, fallback: string, version: Version) returns (r: Option<string>)
    ensures r == BaseImage(images, fallback, version)
  {
    if version == "" { return Some(fallback); }
    for i := 0 to |images|
      invariant FirstPath(images, version) == FirstPath(images[i..], version)
    {
      if images[i].version == version { return Some(images[i].path); }
      assert images[i..][1..] == images[i + 1..];
    }
    return None;
  }

  predicate Registered(images: seq<Image>, version: Version) {
    exists image :: image in images && image.version == version
  }

  /** The steps without a registered image, in their order. */
  function Unregistered(images: seq<Image>, steps: seq<Version>): seq<Version> {
    if steps == [] then []
    else
      var last := steps[|steps| - 1];
      Unregistered(images, steps[..|steps| - 1]) + if Registered(images, last) then [] else [last]
  }

  method MissingImageVersions(images: seq<Image>, steps: seq<Version>) returns (missing: seq<Version>)
    ensures missing == Unregistered(images, steps)
  {
    var registered: map<Version, bool> := map[];
    for i := 0 to |images|
      invariant forall v :: v in registered <==> Registered(images[..i], v)
    {
      assert images[..i + 1] == images[..i] + [images[i]];
      assert images[i] in images[..i + 1];
      registered := registered[images[i].version := true];
    }
    assert images[..|images|] == images;
    missing := [];
    for i := 0 to |steps|
      invariant missing == Unregistered(images, steps[..i])
    {
      assert steps[..i + 1][..i] == steps[..i];
      if steps[i] !in registered { missing := missing + [steps[i]]; }
    }
    assert steps[..|steps|] == steps;
  }

  lemma {:induction false} UnregisteredMembers(images: seq<Image>, steps: seq<Version>, v: Version)
    ensures v in Unregistered(images, steps) <==> v in steps && !Registered(images, v)
  {
    if steps != [] {
      assert steps == steps[..|steps| - 1] + [steps[|steps| - 1]];
      UnregisteredMembers(images, steps[..|steps| - 1], v);
    }
  }

  /** A Machine at each of these versions finds its image. */
  predicate AllResolve(images: seq<Image>, fallback: string, steps: seq<Version>) {
    forall step | step in steps :: BaseImage(images, fallback, step).Some?
  }

  predicate AllEmpty(versions: seq<Version>) {
    forall v | v in versions :: v == ""
  }

  /**
    The preflight agrees with provisioning: a Machine at every step version finds its image exactly when
    nothing but the empty version is missing, which is when nothing is missing for an accepted plan.
  */
  lemma PreflightAgrees(images: seq<Image>, fallback: string, steps: seq<Version>)
    ensures AllResolve(images, fallback, steps) <==> AllEmpty(Unregistered(images, steps))
    ensures "" !in steps ==> (AllResolve(images, fallback, steps) <==> Unregistered(images, steps) == [])
  {
    var missing := Unregistered(images, steps);
    forall v | v in missing ensures v in steps && (BaseImage(images, fallback, v).Some? ==> v == "") {
      UnregisteredMembers(images, steps, v);
    }
    forall step | step in steps ensures step in missing || BaseImage(images, fallback, step).Some? {
      UnregisteredMembers(images, steps, step);
    }
    assert missing != [] ==> missing[0] in missing;
  }

  /** The versions with an image. */
  function VersionsOf(images: seq<Image>): set<Version> {
    set image | image in images :: image.version
  }

  /** A list of steps misses no image exactly when every step is a registered version. */
  lemma NothingMissing(images: seq<Image>, steps: seq<Version>)
    ensures Unregistered(images, steps) == [] <==> forall step | step in steps :: step in VersionsOf(images)
  {
    var missing := Unregistered(images, steps);
    forall step ensures step in missing <==> step in steps && step !in VersionsOf(images) {
      UnregisteredMembers(images, steps, step);
    }
    assert missing != [] ==> missing[0] in missing;
  }

  // ---------------------------------------------------------------- admission

  datatype Problem = VersionInvalid(index: int) | VersionDuplicate(index: int) | PathMissing(index: int)

  predicate UniqueVersions(images: seq<Image>) {
    forall i, j | 0 <= i < j < |images| :: images[i].version != images[j].version
  }

  predicate AcceptableImages(v: Semver, images: seq<Image>) {
    && (forall i | 0 <= i < |images| :: v.valid(images[i].version) && images[i].path != "")
    && UniqueVersions(images)
  }

  /** An error for image i among the first n. */
  predicate Wrong(v: Semver, images: seq<Image>, n: int, p: Problem) {
    0 <= p.index < n <= |images| &&
    match p
    case VersionInvalid(i) => !v.valid(images[i].version)
    case VersionDuplicate(i) => exists j :: 0 <= j < i && images[j].version == images[i].version
    case PathMissing(i) => images[i].path == ""
  }

  method ValidateClusterImages(v: Semver, images: seq<Image>) returns (errs: seq<Problem>)
    ensures forall p :: p in errs <==> Wrong(v, images, |images|, p)
    ensures errs == [] <==> AcceptableImages(v, images)
  {
    errs := [];
    var seen: set<Version> := {};
    for i := 0 to |images|
      invariant forall u :: u in seen <==> exists j :: 0 <= j < i && images[j].version == u
      invariant forall p :: p in errs <==> Wrong(v, images, i, p)
    {
      if !v.valid(images[i].version) { errs := errs + [VersionInvalid(i)]; }
      if images[i].version in seen { errs := errs + [VersionDuplicate(i)]; }
      seen := seen + {images[i].version};
      if images[i].path == "" { errs := errs + [PathMissing(i)]; }
    }
    AcceptableWhenNothingWrong(v, images, errs);
  }

  lemma AcceptableWhenNothingWrong(v: Semver, images: seq<Image>, errs: seq<Problem>)
    requires forall p :: p in errs <==> Wrong(v, images, |images|, p)
    ensures errs == [] <==> AcceptableImages(v, images)
  {
    if errs == [] {
      forall i | 0 <= i < |images| ensures v.valid(images[i].version) && images[i].path != "" {
        assert VersionInvalid(i) !in errs && PathMissing(i) !in errs;
      }
      forall i, j | 0 <= i < j < |images| ensures images[i].version != images[j].version {
        assert VersionDuplicate(j) !in errs;
      }
    } else {
      assert errs[0] in errs;
    }
  }

  // ---------------------------------------------------------------- order of the list

  /** Images for one version agree on the path. */
  ghost predicate OnePathPerVersion(images: seq<Image>) {
    forall a, b | a in images && b in images && a.version == b.version :: a.path == b.path
  }

  ghost predicate OrderIrrelevant(images: seq<Image>) {
    forall other: seq<Image>, version | multiset(other) == multiset(images) ::
      FirstPath(other, version) == FirstPath(images, version)
  }

  /** Moving an image to the front is a reordering that makes it the one found. */
  lemma MovedToFront(images: seq<Image>, a: Image) returns (other: seq<Image>)
    requires a in images
    ensures multiset(other) == multiset(images) && FirstPath(other, a.version) == Some(a.path)
  {
    var i :| 0 <= i < |images| && images[i] == a;
    other := [a] + images[..i] + images[i + 1..];
    assert images == images[..i] + [a] + images[i + 1..];
  }

  /** The path found does not depend on the order of the list exactly when no version has two paths. */
  lemma OrderIrrelevantExactly(images: seq<Image>)
    ensures OrderIrrelevant(images) <==> OnePathPerVersion(images)
  {
    if OnePathPerVersion(images) {
      forall other: seq<Image>, version | multiset(other) == multiset(images)
        ensures FirstPath(other, version) == FirstPath(images, version)
      {
        SameMembers(other, images);
      }
    }
    if OrderIrrelevant(images) {
      forall a, b | a in images && b in images && a.version == b.version ensures a.path == b.path {
        var first := MovedToFront(images, a);
        var second := MovedToFront(images, b);
        assert FirstPath(first, a.version) == FirstPath(images, a.version) == FirstPath(second, a.version);
      }
    }
  }

  /** Accepted lists have that property. */
  lemma AcceptedOrderIrrelevant(v: Semver, images: seq<Image>)
    requires AcceptableImages(v, images)
    ensures OrderIrrelevant(images)
  {
    OrderIrrelevantExactly(images);
  }
}

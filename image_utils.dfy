/** The matching rule of `imageExists`
    (src/helpers/dockerService/serviceComponents/imageUtils.js): whether a locally listed
    image answers to a name. Listing the images is a call into the Docker client; the listed
    images are the input here. `pullImage` is not part of this model. */
module ImageUtils {
  import opened Wrappers
  import opened JsString

  /** A listed image; either list may be absent. */
  datatype Image = Image(RepoTags: Option<seq<string>>, RepoDigests: Option<seq<string>>)

  /** Some digest in `digests` contains `name`. */
  predicate SomeDigestIncludes(digests: seq<string>, name: string) {
    exists k :: 0 <= k < |digests| && Includes(digests[k], name)
  }

  /** The test inside `images.some(...)`: `name` is one of the tags, or a substring of one of
      the digests; a missing list counts as empty. */
  predicate Matches(img: Image, name: string) {
    name in img.RepoTags.GetOr([]) || SomeDigestIncludes(img.RepoDigests.GetOr([]), name)
  }

  /** `images.some(img => Matches(img, imageName))`, as the array method walks the list. */
  function ImageExists(images: seq<Image>, name: string): (b: bool)
    ensures b <==> exists i :: 0 <= i < |images| && Matches(images[i], name)
    ensures images == [] ==> !b
  {
    if images == [] then false
    else if Matches(images[0], name) then true
    else
      var b := ImageExists(images[1..], name);
      assert forall i :: 1 <= i < |images| ==> images[i] == images[1..][i - 1];
      b
  }

  /** An absent tag or digest list behaves as an empty one. */
  lemma AbsentListsAreEmpty(tags: Option<seq<string>>, digests: Option<seq<string>>, name: string)
    ensures Matches(Image(None, digests), name) == Matches(Image(Some([]), digests), name)
    ensures Matches(Image(tags, None), name) == Matches(Image(tags, Some([])), name)
    ensures !Matches(Image(None, None), name)
  {
  }

  /** More listed images never turn a match into a miss, wherever they are added. */
  lemma {:induction false} ImageExistsMonotone(a: seq<Image>, b: seq<Image>, name: string)
    ensures ImageExists(a, name) ==> ImageExists(a + b, name)
    ensures ImageExists(b, name) ==> ImageExists(a + b, name)
  {
    if ImageExists(a, name) {
      var i :| 0 <= i < |a| && Matches(a[i], name);
      assert (a + b)[i] == a[i];
    }
    if ImageExists(b, name) {
      var i :| 0 <= i < |b| && Matches(b[i], name);
      assert (a + b)[|a| + i] == b[i];
    }
  }

  /** Tags are compared whole: a tag that only contains the name does not match by itself. */
  lemma TagMatchIsExact(tag: string, name: string)
    requires tag != name
    ensures !Matches(Image(Some([tag]), None), name)
  {
  }

  /** Digests are compared by substring: any image whose digest mentions the name counts,
      including a digest of a repository whose name merely contains it. */
  lemma DigestMatchIsSubstring(before: string, name: string, after: string)
    ensures ImageExists([Image(None, Some([before + name + after]))], name)
  {
    var d := before + name + after;
    assert d[|before|..|before| + |name|] == name;
    assert OccursAt(d, name, |before|);
    assert Includes([d][0], name);
    assert SomeDigestIncludes([d], name);
    assert Matches(Image(None, Some([d])), name);
  }

  /** The empty name is a substring of every digest, so it is found as soon as any listed
      image has a digest. */
  lemma EmptyNameFoundByAnyDigest(d: string)
    ensures ImageExists([Image(None, Some([d]))], "")
  {
    assert OccursAt(d, "", 0);
    assert Includes([d][0], "");
    assert SomeDigestIncludes([d], "");
    assert Matches(Image(None, Some([d])), "");
  }
}

/**
 * Product-image references (src/integrations/supabase/storage.ts).
 *
 * An image reference is a full object URL of the storage service, a
 * `product-images/...` path, or a bare object path. It is reduced to a path
 * inside the `product-images` bucket, which is then exchanged for a signed URL.
 *
 * Two host services are parameters: the `pathname` of the URL constructor
 * (`None` when the constructor throws) and the signing call of the storage
 * service (`None` when it reports an error or no signed URL).
 */
module Storage {
  import opened Opt
  import Seqs
  import Strings

  const Bucket: string := "product-images"
  const ObjectPrefix: string := "/storage/v1/object/"
  /** Lifetime of a signed URL, in seconds (`60 * 60`). */
  const SignedUrlExpiry: nat := 3600

  /** `new URL(value).pathname`, or `None` when the constructor throws. */
  type UrlPathname = string -> Option<string>

  /** One `createSignedUrl(path, expiresIn)` request against a bucket. */
  datatype SignRequest = SignRequest(bucket: string, path: string, expiresIn: nat)

  /** The signing service: the signed URL, or `None` on an error or missing data. */
  type Signer = SignRequest -> Option<string>

  /** What resolving one reference produced, and the signing request it made, if any. */
  datatype Resolution = Resolution(url: Option<string>, request: Option<SignRequest>)

  /** The case-sensitive scheme test that routes a value to URL parsing. */
  predicate IsHttpUrl(value: string) {
    Strings.StartsWith(value, "http://") || Strings.StartsWith(value, "https://")
  }

  /** `product-images/`, the prefix of a bucket-qualified path. */
  function BucketPrefix(): string {
    Bucket + "/"
  }

  /** The non-empty path segments after the object prefix of a pathname. */
  function ObjectSegments(pathname: string): seq<string>
    requires Strings.Includes(pathname, ObjectPrefix)
  {
    var idx := Strings.IndexOf(pathname, ObjectPrefix);
    Strings.Segments(pathname[idx + |ObjectPrefix|..], '/')
  }

  /**
   * `extractStoragePath`: the object path inside the bucket, or `None`.
   * A `Some("")` result is possible, for the value `product-images/`.
   */
  function ExtractStoragePath(value: string, pathname: UrlPathname): (r: Option<string>)
    // an empty reference has no path
    ensures value == "" ==> r.None?
    // a bucket-qualified path loses exactly one `product-images/` prefix
    ensures value != "" && !IsHttpUrl(value) && Strings.StartsWith(value, BucketPrefix())
            ==> r.Some? && BucketPrefix() + r.value == value
    // any other non-URL value, `HTTP://...` included, is already a path
    ensures value != "" && !IsHttpUrl(value) && !Strings.StartsWith(value, BucketPrefix())
            ==> r == Some(value)
    // a URL yields a path only through a parsed pathname holding the object prefix
    ensures IsHttpUrl(value) && r.Some?
            ==> pathname(value).Some? && Strings.Includes(pathname(value).value, ObjectPrefix)
    // a path taken from a URL is non-empty, with no leading, trailing or doubled `/`
    ensures IsHttpUrl(value) && r.Some? ==> Strings.WellFormedPath(r.value, '/')
  {
    if value == "" then None
    else if IsHttpUrl(value) then
      match pathname(value)
      case None => None
      case Some(p) =>
        if Strings.IndexOf(p, ObjectPrefix) == -1 then None
        else
          var parts := ObjectSegments(p);
          if |parts| < 3 then None
          else if parts[1] != Bucket then None
          else
            Strings.JoinWellFormed(parts[2..], '/');
            Some(Strings.Join(parts[2..], '/'))
    else if Strings.StartsWith(value, BucketPrefix()) then
      assert value == BucketPrefix() + value[|BucketPrefix()|..];
      Some(value[|BucketPrefix()|..])
    else Some(value)
  }

  /** The URL failures: no pathname, no object prefix, too few segments, another bucket. */
  lemma UrlFailures(value: string, pathname: UrlPathname)
    requires IsHttpUrl(value)
    ensures pathname(value).None? ==> ExtractStoragePath(value, pathname).None?
    ensures pathname(value).Some? && !Strings.Includes(pathname(value).value, ObjectPrefix)
            ==> ExtractStoragePath(value, pathname).None?
    ensures pathname(value).Some? && Strings.Includes(pathname(value).value, ObjectPrefix)
            && (|ObjectSegments(pathname(value).value)| < 3 || ObjectSegments(pathname(value).value)[1] != Bucket)
            ==> ExtractStoragePath(value, pathname).None?
  {
  }

  /** The URL success: a bucket match yields the segments after the bucket, joined by `/`. */
  lemma UrlSuccess(value: string, pathname: UrlPathname)
    requires IsHttpUrl(value)
    ensures pathname(value).Some? && Strings.Includes(pathname(value).value, ObjectPrefix)
            && |ObjectSegments(pathname(value).value)| >= 3 && ObjectSegments(pathname(value).value)[1] == Bucket
            ==> ExtractStoragePath(value, pathname)
                == Some(Strings.Join(ObjectSegments(pathname(value).value)[2..], '/'))
  {
  }

  /**
   * Any object URL of the bucket, `<pre>/storage/v1/object/<kind>/product-images/<path>`
   * with the object prefix first occurring after `<pre>`: the non-empty pieces
   * of `<path>` come back joined by `/`, so doubled, leading and trailing
   * slashes in `<path>` are dropped; a `<path>` with no such piece gives null.
   */
  lemma ObjectUrlPath(value: string, pathname: UrlPathname, pre: string, kind: string, path: string)
    requires IsHttpUrl(value)
    requires Strings.IndexOf(pre + ObjectPrefix, ObjectPrefix) == |pre|
    requires kind != "" && '/' !in kind
    requires pathname(value) == Some(pre + ObjectPrefix + kind + "/" + Bucket + "/" + path)
    ensures Strings.Segments(path, '/') != [] ==>
              ExtractStoragePath(value, pathname) == Some(Strings.Join(Strings.Segments(path, '/'), '/'))
    ensures Strings.Segments(path, '/') == [] ==> ExtractStoragePath(value, pathname).None?
  {
    var p := pathname(value).value;
    var tail := kind + "/" + Bucket + "/" + path;
    assert p == (pre + ObjectPrefix) + tail;
    FirstOccurrenceKept(pre + ObjectPrefix, tail, ObjectPrefix, |pre|);
    assert p[|pre| + |ObjectPrefix|..] == tail;
    ObjectTailPieces(kind, path);
    var parts := ObjectSegments(p);
    assert parts == [kind, Bucket] + Strings.Segments(path, '/');
    assert parts[2..] == Strings.Segments(path, '/');
  }

  /** Appending text after a first occurrence leaves it the first occurrence. */
  lemma FirstOccurrenceKept(a: string, b: string, pat: string, i: nat)
    requires Strings.IndexOf(a, pat) == i && i + |pat| == |a|
    ensures Strings.IndexOf(a + b, pat) == i
  {
    var s := a + b;
    assert s[i..i + |pat|] == a[i..i + |pat|];
    assert Strings.OccursAt(s, pat, i);
    forall k: nat | k < i ensures !Strings.OccursAt(s, pat, k) {
      assert !Strings.OccursAt(a, pat, k);
      assert s[k..k + |pat|] == a[k..k + |pat|];
    }
    assert Strings.Includes(s, pat);
  }

  /** The non-empty pieces of `<kind>/product-images/<path>`: the kind, the bucket, then those of the path. */
  lemma ObjectTailPieces(kind: string, path: string)
    requires kind != "" && '/' !in kind
    ensures Strings.Segments(kind + "/" + Bucket + "/" + path, '/') == [kind, Bucket] + Strings.Segments(path, '/')
  {
    ObjectTailSplit(kind, path);
    var segs := Strings.Split(path, '/');
    var keep := (q: string) => q != "";
    assert Strings.Segments(path, '/') == Seqs.Filter(segs, keep);
    Seqs.FilterPassingPrefix([kind, Bucket], segs, keep);
  }

  /**
   * An object URL `.../storage/v1/object/<kind>/product-images/<path>` (kind
   * `public`, `sign`, ...) gives back `<path>` when that path is well formed.
   */
  lemma {:induction false} ObjectUrlRoundTrip(value: string, pathname: UrlPathname, kind: string, path: string)
    requires IsHttpUrl(value)
    requires kind != "" && '/' !in kind
    requires Strings.WellFormedPath(path, '/')
    requires pathname(value) == Some(ObjectPrefix + kind + "/" + Bucket + "/" + path)
    ensures ExtractStoragePath(value, pathname) == Some(path)
  {
    var p := pathname(value).value;
    var tail := kind + "/" + Bucket + "/" + path;
    assert p == ObjectPrefix + tail;
    assert Strings.OccursAt(p, ObjectPrefix, 0);
    assert Strings.IndexOf(p, ObjectPrefix) == 0;
    assert p[|ObjectPrefix|..] == tail;
    ObjectTailSegments(kind, path);
    var parts := ObjectSegments(p);
    assert parts == [kind, Bucket] + Strings.Split(path, '/');
    assert parts[2..] == Strings.Split(path, '/');
    Strings.SegmentsOfWellFormed(path, '/');
  }

  /** The pieces of `<kind>/product-images/<path>`: the kind, the bucket, then the pieces of the path. */
  lemma ObjectTailSplit(kind: string, path: string)
    requires '/' !in kind
    ensures Strings.Split(kind + "/" + Bucket + "/" + path, '/') == [kind, Bucket] + Strings.Split(path, '/')
  {
    BucketHasNoSlash();
    Strings.SplitTwoPieces(kind, Bucket, '/', path);
  }

  lemma BucketHasNoSlash()
    ensures '/' !in Bucket
  {
  }

  /** For a well-formed path, no piece of `<kind>/product-images/<path>` is dropped as empty. */
  lemma ObjectTailSegments(kind: string, path: string)
    requires kind != "" && '/' !in kind
    requires Strings.WellFormedPath(path, '/')
    ensures Strings.Segments(kind + "/" + Bucket + "/" + path, '/') == [kind, Bucket] + Strings.Split(path, '/')
  {
    ObjectTailSplit(kind, path);
    Strings.SegmentsOfWellFormed(path, '/');
    var segs := Strings.Split(path, '/');
    var keep := (q: string) => q != "";
    assert Strings.Segments(path, '/') == Seqs.Filter(segs, keep);
    Seqs.FilterPassingPrefix([kind, Bucket], segs, keep);
  }

  /** `product-images/<path>` gives back `<path>`: one prefix is stripped, not more. */
  lemma BucketPathRoundTrip(path: string, pathname: UrlPathname)
    ensures ExtractStoragePath(BucketPrefix() + path, pathname) == Some(path)
  {
    var v := BucketPrefix() + path;
    assert v[..7] == "product";
    assert !IsHttpUrl(v) by {
      assert v[..7] != "http://" by { assert v[..7][0] == 'p'; }
      assert |v| < 8 || v[..8] != "https://" by { assert |v| < 8 || v[..8][0] == 'p'; }
    }
    assert v[..|BucketPrefix()|] == BucketPrefix();
    var r := ExtractStoragePath(v, pathname);
    assert r.value == (BucketPrefix() + r.value)[|BucketPrefix()|..];
  }

  /** The scheme test is case-sensitive: an upper-case `HTTP://` reference is kept verbatim. */
  lemma UpperCaseSchemeIsAPath(pathname: UrlPathname)
    ensures var v := "HTTP://" + "x/storage/v1/object/public/product-images/a.png";
            ExtractStoragePath(v, pathname) == Some(v)
  {
    var v := "HTTP://" + "x/storage/v1/object/public/product-images/a.png";
    assert v[0] == 'H';
    assert v[..7] != "http://" by { assert v[..7][0] == 'H'; }
    assert v[..8] != "https://" by { assert v[..8][0] == 'H'; }
    assert v[..15] != BucketPrefix() by { assert v[..15][0] == 'H'; }
  }

  /**
   * `normalizeProductImageValue`: the storage path when one is extracted and
   * non-empty, otherwise the value unchanged.
   */
  function NormalizeProductImageValue(imageUrl: Option<string>, pathname: UrlPathname): (r: Option<string>)
    // null and "" are returned unchanged
    ensures !TruthyString(imageUrl) ==> r == imageUrl
    // a non-empty reference never becomes null or empty
    ensures TruthyString(imageUrl) ==> TruthyString(r)
    // a changed value is the extracted storage path
    ensures r != imageUrl ==> r == ExtractStoragePath(imageUrl.value, pathname)
    // no extracted path, or an empty one, leaves the original string
    ensures imageUrl.Some? && !TruthyString(ExtractStoragePath(imageUrl.value, pathname)) ==> r == imageUrl
    // a non-empty extracted path replaces the reference
    ensures TruthyString(imageUrl) && TruthyString(ExtractStoragePath(imageUrl.value, pathname))
            ==> r == ExtractStoragePath(imageUrl.value, pathname)
  {
    if !TruthyString(imageUrl) then imageUrl
    else
      var storagePath := ExtractStoragePath(imageUrl.value, pathname);
      if !TruthyString(storagePath) then imageUrl else storagePath
  }

  /** Normalising an object URL stores the bare object path. */
  lemma NormalizeObjectUrl(value: string, pathname: UrlPathname, kind: string, path: string)
    requires IsHttpUrl(value)
    requires kind != "" && '/' !in kind
    requires Strings.WellFormedPath(path, '/')
    requires pathname(value) == Some(ObjectPrefix + kind + "/" + Bucket + "/" + path)
    ensures NormalizeProductImageValue(Some(value), pathname) == Some(path)
  {
    ObjectUrlRoundTrip(value, pathname, kind, path);
  }

  /** `product-images/` alone extracts to the empty path, so normalising keeps it. */
  lemma NormalizeBareBucketPrefix(pathname: UrlPathname)
    ensures ExtractStoragePath("product-images/", pathname) == Some("")
    ensures NormalizeProductImageValue(Some("product-images/"), pathname) == Some("product-images/")
  {
    BucketPathRoundTrip("", pathname);
    assert BucketPrefix() + "" == "product-images/";
  }

  /**
   * Normalising is not idempotent: a doubled `product-images/` prefix loses
   * one copy per pass.
   */
  lemma NormalizeStripsOncePerPass(path: string, pathname: UrlPathname)
    requires path != ""
    ensures NormalizeProductImageValue(Some(BucketPrefix() + BucketPrefix() + path), pathname)
            == Some(BucketPrefix() + path)
    ensures NormalizeProductImageValue(Some(BucketPrefix() + path), pathname) == Some(path)
  {
    BucketPathRoundTrip(BucketPrefix() + path, pathname);
    BucketPathRoundTrip(path, pathname);
    assert BucketPrefix() + BucketPrefix() + path == BucketPrefix() + (BucketPrefix() + path);
  }

  /**
   * `resolveProductImageUrl`: a signed URL for the storage path, requested
   * with a one-hour expiry, or the reference unchanged when there is no
   * path or signing fails.
   */
  function ResolveProductImageUrl(imageUrl: Option<string>, pathname: UrlPathname, sign: Signer): (r: Resolution)
    // the signer is asked exactly when a non-empty storage path was extracted
    ensures r.request.Some? <==> TruthyString(imageUrl) && TruthyString(ExtractStoragePath(imageUrl.value, pathname))
    // ... for that path, in the product bucket, for one hour
    ensures r.request.Some? ==>
              r.request.value == SignRequest(Bucket, ExtractStoragePath(imageUrl.value, pathname).value, SignedUrlExpiry)
    // without a request, or when signing fails, the reference comes back unchanged
    ensures r.request.None? || !TruthyString(sign(r.request.value)) ==> r.url == imageUrl
    // a successful signing is what is returned
    ensures r.request.Some? && TruthyString(sign(r.request.value)) ==> r.url == sign(r.request.value)
    // a non-empty reference always resolves to a non-empty URL
    ensures TruthyString(imageUrl) ==> TruthyString(r.url)
    ensures imageUrl.Some? ==> r.url.Some?
  {
    if !TruthyString(imageUrl) then Resolution(imageUrl, None)
    else
      var storagePath := ExtractStoragePath(imageUrl.value, pathname);
      if !TruthyString(storagePath) then Resolution(imageUrl, None)
      else
        var request := SignRequest(Bucket, storagePath.value, SignedUrlExpiry);
        var signed := sign(request);
        if !TruthyString(signed) then Resolution(imageUrl, Some(request))
        else Resolution(signed, Some(request))
  }

  /** `resolveProductImageUrls`: each product's image resolved in place, order and count kept. */
  function ResolveProductImageUrls(imageUrls: seq<Option<string>>, pathname: UrlPathname, sign: Signer)
    : (r: seq<Option<string>>)
    ensures |r| == |imageUrls|
    // each entry is the resolution of the product at the same position
    ensures forall i :: 0 <= i < |r| ==> r[i] == ResolveProductImageUrl(imageUrls[i], pathname, sign).url
    ensures forall i :: 0 <= i < |r| ==> TruthyString(imageUrls[i]) ==> TruthyString(r[i])
    ensures forall i :: 0 <= i < |r| ==> !TruthyString(imageUrls[i]) ==> r[i] == imageUrls[i]
  {
    seq(|imageUrls|, i requires 0 <= i < |imageUrls| => ResolveProductImageUrl(imageUrls[i], pathname, sign).url)
  }

  /** `resolveProductMainImageUrl`: a non-empty main image path wins over the image URL. */
  function ResolveProductMainImageUrl(imageUrl: Option<string>, mainImagePath: Option<string>,
                                      pathname: UrlPathname, sign: Signer): (r: Resolution)
    ensures TruthyString(mainImagePath) ==> r == ResolveProductImageUrl(mainImagePath, pathname, sign)
    ensures !TruthyString(mainImagePath) ==> r == ResolveProductImageUrl(imageUrl, pathname, sign)
    // with a main image path the result is usable whatever the image URL is
    ensures TruthyString(mainImagePath) ==> TruthyString(r.url)
  {
    if TruthyString(mainImagePath) then ResolveProductImageUrl(mainImagePath, pathname, sign)
    else ResolveProductImageUrl(imageUrl, pathname, sign)
  }

  /** The URL each gallery path resolves to (never null, since each path is a string). */
  function GalleryResolved(paths: seq<string>, pathname: UrlPathname, sign: Signer): (r: seq<string>)
    ensures |r| == |paths|
  {
    seq(|paths|, i requires 0 <= i < |paths| => ResolveProductImageUrl(Some(paths[i]), pathname, sign).url.value)
  }

  /**
   * `resolveProductGalleryUrls`: every gallery path resolved, empty results
   * dropped; no gallery, or an empty one, gives no URLs.
   */
  function ResolveProductGalleryUrls(galleryPaths: Option<seq<string>>, pathname: UrlPathname, sign: Signer)
    : (r: seq<string>)
    ensures galleryPaths.None? || galleryPaths.value == [] ==> r == []
    ensures galleryPaths.Some? ==> |r| <= |galleryPaths.value|
    ensures forall i :: 0 <= i < |r| ==> r[i] != ""
    // exactly the non-empty resolutions of the paths are kept
    ensures galleryPaths.Some? ==>
      forall u :: u in r <==> u in GalleryResolved(galleryPaths.value, pathname, sign) && u != ""
    // ... each as often as it is resolved, duplicates included
    ensures galleryPaths.Some? ==>
      forall u :: multiset(r)[u] == if u != "" then multiset(GalleryResolved(galleryPaths.value, pathname, sign))[u] else 0
  {
    if galleryPaths.None? || |galleryPaths.value| == 0 then []
    else
      var all := GalleryResolved(galleryPaths.value, pathname, sign);
      var keep := (u: string) => u != "";
      assert forall u :: u in Seqs.Filter(all, keep) <==> u in all && u != "" by {
        forall u ensures u in Seqs.Filter(all, keep) <==> u in all && u != "" {
          Seqs.FilterMembership(all, keep, u);
        }
      }
      assert forall u :: multiset(Seqs.Filter(all, keep))[u] == if u != "" then multiset(all)[u] else 0 by {
        forall u ensures multiset(Seqs.Filter(all, keep))[u] == if u != "" then multiset(all)[u] else 0 {
          Seqs.FilterMultiset(all, keep, u);
        }
      }
      Seqs.Filter(all, keep)
  }

  /**
   * A gallery of non-empty paths loses nothing: one URL per path, in order,
   * each the resolution of its path.
   */
  lemma GalleryOfNonEmptyPaths(paths: seq<string>, pathname: UrlPathname, sign: Signer)
    requires forall i :: 0 <= i < |paths| ==> paths[i] != ""
    ensures ResolveProductGalleryUrls(Some(paths), pathname, sign) == GalleryResolved(paths, pathname, sign)
    ensures forall i :: 0 <= i < |paths| ==>
      Some(ResolveProductGalleryUrls(Some(paths), pathname, sign)[i])
      == ResolveProductImageUrl(Some(paths[i]), pathname, sign).url
  {
    var all := GalleryResolved(paths, pathname, sign);
    forall i | 0 <= i < |all| ensures all[i] != "" {
      assert TruthyString(Some(paths[i]));
    }
    Seqs.FilterAll(all, (u: string) => u != "");
  }

  /** The resolved gallery keeps the order of the paths it came from. */
  lemma GalleryKeepsOrder(paths: seq<string>, pathname: UrlPathname, sign: Signer)
    ensures Seqs.IsSubseq(ResolveProductGalleryUrls(Some(paths), pathname, sign),
                          GalleryResolved(paths, pathname, sign))
  {
    Seqs.FilterIsSubseq(GalleryResolved(paths, pathname, sign), (u: string) => u != "");
  }
}

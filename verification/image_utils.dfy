/** ImageUtils' path helpers: the path handed to the image loader, and the
    address of a Hatchet image scaled to the width it is shown at. Java's
    32-bit int arithmetic is written out; Wi-Fi availability is a
    parameter. */
module Images {
  import opened Common

  const HTTPS_SCHEME: string := "https://"
  const HTTP_SCHEME: string := "http://"
  const FILE_SCHEME: string := "file:"

  // ---------------------------------------------------------------------------
  // preparePathForPicasso

  /** A path already addressed on the web. */
  predicate IsWebPath(path: string) {
    Contains(path, HTTPS_SCHEME) || Contains(path, HTTP_SCHEME)
  }

  /** preparePathForPicasso: null, empty and web paths are kept; a local
      path is given the file scheme unless it has it already. */
  function PreparePathForPicasso(path: Option<string>): (r: Option<string>)
    ensures r.None? <==> path.None?
    ensures path.None? || path.value == "" || IsWebPath(path.value) ==> r == path
    ensures path.Some? && HasPrefix(path.value, FILE_SCHEME) ==> r == path
    ensures path.Some? && path.value != "" && !IsWebPath(path.value) && !HasPrefix(path.value, FILE_SCHEME) ==>
              r == Some(FILE_SCHEME + path.value)
  {
    match path
    case None => None
    case Some(p) =>
      if p == "" || IsWebPath(p) then path
      else if HasPrefix(p, FILE_SCHEME) then path
      else Some(FILE_SCHEME + p)
  }

  /** A web scheme starts with 'h', which the file scheme does not hold:
      putting the file scheme in front of a path creates no web scheme. */
  lemma {:induction false} FileSchemeAddsNoWebScheme(p: string, scheme: string)
    requires scheme == HTTPS_SCHEME || scheme == HTTP_SCHEME
    ensures Contains(FILE_SCHEME + p, scheme) ==> Contains(p, scheme)
  {
    var s := FILE_SCHEME + p;
    if Contains(s, scheme) {
      var i :| 0 <= i <= |s| - |scheme| && OccursAt(s, scheme, i);
      assert s[i] == scheme[0] == 'h';
      assert forall j | 0 <= j < |FILE_SCHEME| :: s[j] != 'h';
      assert p[i - |FILE_SCHEME|..i - |FILE_SCHEME| + |scheme|] == s[i..i + |scheme|];
      assert OccursAt(p, scheme, i - |FILE_SCHEME|);
    }
  }

  /** Every non-empty result is a web path or a file path. */
  lemma {:induction false} PreparedPathIsLoadable(path: Option<string>)
    requires path.Some? && path.value != ""
    ensures var r := PreparePathForPicasso(path).value;
            IsWebPath(r) || HasPrefix(r, FILE_SCHEME)
  {
    var p := path.value;
    if !IsWebPath(p) && !HasPrefix(p, FILE_SCHEME) {
      assert (FILE_SCHEME + p)[..|FILE_SCHEME|] == FILE_SCHEME;
    }
  }

  /** Preparing a prepared path changes nothing. */
  lemma {:induction false} PreparePathIdempotent(path: Option<string>)
    ensures PreparePathForPicasso(PreparePathForPicasso(path)) == PreparePathForPicasso(path)
  {
    if path.Some? && path.value != "" && !IsWebPath(path.value) && !HasPrefix(path.value, FILE_SCHEME) {
      var r := FILE_SCHEME + path.value;
      FileSchemeAddsNoWebScheme(path.value, HTTPS_SCHEME);
      FileSchemeAddsNoWebScheme(path.value, HTTP_SCHEME);
      assert r[..|FILE_SCHEME|] == FILE_SCHEME;
      assert HasPrefix(r, FILE_SCHEME);
    }
  }

  // ---------------------------------------------------------------------------
  // Java int arithmetic

  predicate IsJavaInt(x: int) {
    -0x8000_0000 <= x < 0x8000_0000
  }

  /** The 32-bit two's complement value of `x`, as int arithmetic leaves it. */
  function Wrap32(x: int): (r: int)
    ensures IsJavaInt(r)
    ensures IsJavaInt(x) ==> r == x
  {
    (x + 0x8000_0000) % 0x1_0000_0000 - 0x8000_0000
  }

  /** Java's int division, which truncates toward zero. */
  function JavaDiv(a: int, b: int): (r: int)
    requires b != 0
    ensures a >= 0 && b > 0 ==> r == a / b
    ensures a <= 0 && b > 0 ==> r == -((-a) / b)
  {
    var q := (if a < 0 then -a else a) / (if b < 0 then -b else b);
    if (a < 0) == (b < 0) then q else -q
  }

  // ---------------------------------------------------------------------------
  // buildImagePath

  /** The part of an Image the address uses. */
  datatype Image = Image(imagePath: string, isHatchetImage: bool, width: int, height: int)

  /** The width asked of the server: the image's shorter side, capped by the
      requested width, or by two thirds of it when Wi-Fi is not available. */
  function ActualWidth(image: Image, width: int, wifi: bool): (n: int)
    requires IsJavaInt(width) && IsJavaInt(image.width) && IsJavaInt(image.height)
    ensures IsJavaInt(n)
    ensures n <= image.height && n <= image.width
    ensures n == image.height || n == image.width || n == (if wifi then width else JavaDiv(Wrap32(width * 2), 3))
    ensures wifi ==> n <= width
    ensures !wifi ==> n <= JavaDiv(Wrap32(width * 2), 3)
    ensures width >= 0 ==> n <= width
    ensures !wifi && 0 <= width < 0x4000_0000 ==> n <= width * 2 / 3
  {
    var imageSize := Min(image.height, image.width);
    if wifi then Min(imageSize, width) else Min(imageSize, JavaDiv(Wrap32(width * 2), 3))
  }

  /** buildImagePath: a Hatchet image is asked for at the actual width, as
      both its width and its height; any other image's path is kept. */
  function BuildImagePath(image: Image, width: int, wifi: bool): (r: string)
    requires IsJavaInt(width) && IsJavaInt(image.width) && IsJavaInt(image.height)
    ensures !image.isHatchetImage ==> r == image.imagePath
    ensures image.isHatchetImage ==>
              r == image.imagePath + SizeQuery(IntToString(ActualWidth(image, width, wifi)))
  {
    if image.isHatchetImage then
      var n := IntToString(ActualWidth(image, width, wifi));
      image.imagePath + "?width=" + n + "&height=" + n
    else image.imagePath
  }

  /** The query asking for a square of one size. */
  function SizeQuery(size: string): string {
    "?width=" + size + "&height=" + size
  }

  /** The size query determines the size: two addresses of the same path
      that agree ask for the same width. */
  lemma {:induction false} SizeQueryInjective(path: string, a: int, b: int)
    requires path + SizeQuery(IntToString(a)) == path + SizeQuery(IntToString(b))
    ensures a == b
  {
    var sa, sb := IntToString(a), IntToString(b);
    var qa, qb := SizeQuery(sa), SizeQuery(sb);
    assert qa == (path + qa)[|path|..] == (path + qb)[|path|..] == qb;
    assert |qa| == 15 + 2 * |sa| && |qb| == 15 + 2 * |sb|;
    assert |sa| == |sb|;
    assert sa == qa[7..7 + |sa|] == qb[7..7 + |sb|] == sb;
    IntToStringInjective(a, b);
  }
}

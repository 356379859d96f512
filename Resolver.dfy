/**
 * The image-reference resolver of streamlit_app.py (`descargar_imagen_bytes`):
 * blank references are refused without a request, Google Drive share links are
 * rewritten to the direct-content address, and a response is taken only when it
 * is a 200 whose content type mentions "image". The HTTP GET itself is the
 * parameter `fetch`.
 */
module Resolver {
  import opened Wrappers
  import opened Seqs
  import opened Rows

  const DRIVE_HOST := "drive.google.com"
  const PATH_MARKER := "/d/"
  const QUERY_MARKER := "id="
  const DIRECT_PREFIX := "https://drive.google.com/uc?export=view&id="

  /** What `requests.get(url, timeout=10)` gives back: a response, or an exception (timeout, connection or URL error). */
  datatype Response = Response(status: int, contentType: Option<string>, body: Bytes) | Failed

  /** Python's `str.lower` on ASCII letters. */
  function LowerChar(c: char): char {
    if 'A' <= c <= 'Z' then (c as int + 32) as char else c
  }

  function Lower(s: string): string {
    seq(|s|, i requires 0 <= i < |s| => LowerChar(s[i]))
  }

  /**
   * `not url or str(url).lower() in ["", "nan"]`: a reference is blank exactly
   * when it is empty or one of the eight letter-case spellings of "nan".
   */
  function IsBlank(ref: string): (blank: bool)
    ensures blank <==> ref == "" || (|ref| == 3 && ref[0] in "nN" && ref[1] in "aA" && ref[2] in "nN")
  {
    ref == ""
    || (assert |ref| == 3 ==> Lower(ref) == [LowerChar(ref[0]), LowerChar(ref[1]), LowerChar(ref[2])];
        Lower(ref) == "nan")
  }

  /**
   * The address actually requested for a non-blank reference. Only a Drive link
   * carrying "/d/" or "id=" is rewritten, always to the direct-view prefix
   * followed by an identifier; a "/d/" identifier never holds "/", an "id="
   * identifier never holds "&".
   */
  function RewriteUrl(url: string): (r: string)
    ensures r == url || DIRECT_PREFIX <= r
    ensures r != url ==> Contains(url, DRIVE_HOST) && (Contains(url, PATH_MARKER) || Contains(url, QUERY_MARKER))
    ensures Contains(url, DRIVE_HOST) && Contains(url, PATH_MARKER) ==>
      DIRECT_PREFIX <= r && '/' !in r[|DIRECT_PREFIX|..]
    ensures Contains(url, DRIVE_HOST) && !Contains(url, PATH_MARKER) && Contains(url, QUERY_MARKER) ==>
      DIRECT_PREFIX <= r && '&' !in r[|DIRECT_PREFIX|..]
  {
    if Contains(url, DRIVE_HOST) then
      if Contains(url, PATH_MARKER) then
        var id := Split(Split(url, PATH_MARKER)[1], "/")[0];
        NotContainsSingle(id, '/');
        DIRECT_PREFIX + id
      else if Contains(url, QUERY_MARKER) then
        var id := Split(Split(url, QUERY_MARKER)[1], "&")[0];
        NotContainsSingle(id, '&');
        DIRECT_PREFIX + id
      else url
    else url
  }

  /** The request a reference leads to: none for a blank one, else its rewritten address. */
  function RequestUrl(ref: string): (r: Option<string>)
    ensures r.None? <==> IsBlank(ref)
    ensures r.Some? ==> r.value == RewriteUrl(ref)
  {
    if IsBlank(ref) then None else Some(RewriteUrl(ref))
  }

  /** A response is accepted when its status is 200 and its content type (absent: "") contains "image". */
  function Accept(status: int, contentType: string): (ok: bool)
    ensures ok <==> status == 200 && exists i: nat :: OccursAt(contentType, "image", i)
  {
    status == 200 && Contains(contentType, "image")
  }

  /**
   * The image bytes a reference resolves to, or None ("unavailable"); never an
   * exception. A blank reference never yields bytes, and bytes only ever come
   * from a 200 response to the requested address.
   */
  function Download(ref: string, fetch: string -> Response): (image: Option<Bytes>)
    ensures IsBlank(ref) ==> image.None?
    ensures image.Some? ==>
      var resp := fetch(RewriteUrl(ref));
      resp.Response? && resp.status == 200 && image.value == resp.body
  {
    match RequestUrl(ref)
    case None => None
    case Some(url) =>
      match fetch(url)
      case Failed => None
      case Response(status, contentType, body) =>
        if Accept(status, contentType.GetOr("")) then Some(body) else None
  }

  // ---------------------------------------------------------------------------
  // Properties of the resolver

  /**
   * The only address the resolver ever requests is RequestUrl(ref), and a blank
   * reference leads to no request: two fetchers that agree there give the same result.
   */
  lemma DownloadAsksOnlyRequestUrl(ref: string, f: string -> Response, g: string -> Response)
    requires RequestUrl(ref).Some? ==> f(RequestUrl(ref).value) == g(RequestUrl(ref).value)
    ensures Download(ref, f) == Download(ref, g)
  {
  }

  /** Bytes come back exactly when the fetch of the requested address was an accepted response, and they are its body. */
  lemma DownloadResult(ref: string, fetch: string -> Response)
    ensures Download(ref, fetch).Some? <==>
      !IsBlank(ref) && fetch(RewriteUrl(ref)).Response? &&
      fetch(RewriteUrl(ref)).status == 200 &&
      Contains(fetch(RewriteUrl(ref)).contentType.GetOr(""), "image")
    ensures Download(ref, fetch).Some? ==> Download(ref, fetch).value == fetch(RewriteUrl(ref)).body
  {
  }

  lemma OccursInPrefix<T>(s: seq<T>, sub: seq<T>, j: nat, k: nat)
    requires OccursAt(s, sub, j) && j + |sub| <= k <= |s|
    ensures OccursAt(s[..k], sub, j)
  {
    assert s[..k][j..j + |sub|] == s[j..j + |sub|];
  }

  lemma NotContainsSingle<T>(p: seq<T>, c: T)
    requires !Contains(p, [c])
    ensures c !in p
  {
    if c in p {
      var i :| 0 <= i < |p| && p[i] == c;
      assert p[i..i + 1] == [c];
      ContainsAt(p, [c], i);
    }
  }

  /** The first piece of a split is a prefix that ends at the first separator, or is everything. */
  lemma SplitHead<T>(t: seq<T>, sep: seq<T>)
    requires |sep| > 0
    ensures Split(t, sep)[0] <= t
    ensures Split(t, sep)[0] == t || OccursAt(t, sep, |Split(t, sep)[0]|)
    ensures forall j: nat :: j < |Split(t, sep)[0]| ==> !OccursAt(t, sep, j)
  {
  }

  /** A prefix `a` of `t` free of the separator's first element lies inside the first piece of the split. */
  lemma SplitHeadCovers<T>(t: seq<T>, sep: seq<T>, a: seq<T>)
    requires |sep| > 0 && a <= t && sep[0] !in a
    ensures a <= Split(t, sep)[0]
  {
    var h := Split(t, sep)[0];
    SplitHead(t, sep);
    if |h| < |a| {
      assert false;
    }
  }

  /** After the first "/d/", the identifier runs up to the next "/". */
  lemma {:induction false} PathIdFromTail(id: string, rest: string)
    requires '/' !in id
    requires rest == [] || rest[0] == '/'
    ensures Split(Split(id + rest, PATH_MARKER)[0], "/")[0] == id
  {
    var t := id + rest;
    var h := Split(t, PATH_MARKER)[0];
    SplitHeadCovers(t, PATH_MARKER, id);
    SplitHead(t, PATH_MARKER);
    var r := h[|id|..];
    assert h == id + r;
    if r != [] {
      assert r[0] == t[|id|] == rest[0];
    }
    SplitHeadSingle(id, '/', r);
  }

  /** Splitting at the first occurrence of a marker that does not occur in `pre + marker[..2]`. */
  lemma SplitAfterFirstMarker(pre: string, marker: string, t: string)
    requires |marker| == 3
    requires !Contains(pre + marker[..2], marker)
    ensures Contains(pre + marker + t, marker)
    ensures Split(pre + marker + t, marker) == [pre] + Split(t, marker)
  {
    var s := pre + marker + t;
    forall j: nat | j < |pre| ensures !OccursAt(s, marker, j) {
      if OccursAt(s, marker, j) {
        OccursInPrefix(s, marker, j, |pre| + 2);
        assert s[..|pre| + 2] == pre + marker[..2];
        ContainsAt(pre + marker[..2], marker, j);
      }
    }
    SplitAtFirst(pre, marker, t);
    assert s[|pre|..|pre| + 3] == marker;
    ContainsAt(s, marker, |pre|);
  }

  /**
   * A Drive link with "/d/": the request goes to the direct-content address
   * followed by exactly the text between the first "/d/" and the next "/" (or the
   * end), whatever else the link holds ("/d/" wins over "id=").
   */
  lemma {:induction false} DrivePathLink(pre: string, id: string, rest: string)
    requires Contains(pre + PATH_MARKER + id + rest, DRIVE_HOST)
    requires !Contains(pre + "/d", PATH_MARKER)
    requires '/' !in id
    requires rest == [] || rest[0] == '/'
    ensures RewriteUrl(pre + PATH_MARKER + id + rest) == DIRECT_PREFIX + id
  {
    var s := pre + PATH_MARKER + id + rest;
    assert s == pre + PATH_MARKER + (id + rest);
    assert PATH_MARKER[..2] == "/d";
    SplitAfterFirstMarker(pre, PATH_MARKER, id + rest);
    PathIdFromTail(id, rest);
  }

  /**
   * A Drive link with "id=" but no "/d/": with `t` the text after the first
   * "id=", the identifier is the prefix of `t` that stops at the first "&", at
   * the next "id=", or at the end. It never contains "&" nor "id=".
   */
  lemma {:induction false} DriveQueryLink(pre: string, t: string)
    requires Contains(pre + QUERY_MARKER + t, DRIVE_HOST)
    requires !Contains(pre + QUERY_MARKER + t, PATH_MARKER)
    requires !Contains(pre + "id", QUERY_MARKER)
    ensures DIRECT_PREFIX <= RewriteUrl(pre + QUERY_MARKER + t)
    ensures var id := RewriteUrl(pre + QUERY_MARKER + t)[|DIRECT_PREFIX|..];
      && id <= t
      && '&' !in id
      && !Contains(id, QUERY_MARKER)
      && (id == t || t[|id|] == '&' || OccursAt(t, QUERY_MARKER, |id|))
  {
    var s := pre + QUERY_MARKER + t;
    assert QUERY_MARKER[..2] == "id";
    SplitAfterFirstMarker(pre, QUERY_MARKER, t);
    var h := Split(t, QUERY_MARKER)[0];
    assert Split(s, QUERY_MARKER)[1] == h;
    SplitHead(t, QUERY_MARKER);
    var id := Split(h, "&")[0];
    SplitHead(h, "&");
    assert RewriteUrl(s)[|DIRECT_PREFIX|..] == id;
    NotContainsSingle(id, '&');
    if id != h {
      assert h[|id|..|id| + 1] == "&";
      assert t[|id|] == h[|id|];
    }
    if Contains(id, QUERY_MARKER) {
      var j := IndexOf(id, QUERY_MARKER).value;
      assert id == h[..|id|];
      PrefixOccurs(h, |id|, QUERY_MARKER, j);
      ContainsAt(h, QUERY_MARKER, j);
    }
  }
}

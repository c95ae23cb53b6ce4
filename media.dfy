/** Rewriting of Google Drive and YouTube links into directly usable image
    and video URLs (src/lib/media.ts). The two regular expressions are
    modelled as a leftmost search for a literal prefix followed by the
    longest non-empty run of characters of the class [a-zA-Z0-9_-]. */
module Media {
  import opened Wrappers
  import opened Strings

  /** The character class [a-zA-Z0-9_-]. */
  predicate IsIdChar(c: char)
  {
    IsAsciiLower(c) || IsAsciiUpper(c) || IsDigit(c) || c == '_' || c == '-'
  }

  predicate AllIdChars(s: string)
  {
    forall k :: 0 <= k < |s| ==> IsIdChar(s[k])
  }

  /** The greedy run of id characters starting at index j. */
  function IdRun(s: string, j: nat): (r: string)
    ensures j <= |s| ==> j + |r| <= |s| && r == s[j..j + |r|]
    ensures AllIdChars(r)
    ensures j + |r| < |s| ==> !IsIdChar(s[j + |r|])
    decreases |s| - j
  {
    if j < |s| && IsIdChar(s[j]) then [s[j]] + IdRun(s, j + 1) else []
  }

  /** The pattern /prefix([a-zA-Z0-9_-]+)/ can match starting at index i. */
  predicate PatternAt(s: string, prefix: string, i: nat)
  {
    StartsAt(s, prefix, i) && i + |prefix| < |s| && IsIdChar(s[i + |prefix|])
  }

  /** The leftmost start index at or after `from` where the pattern matches. */
  function FirstPatternFrom(s: string, prefix: string, from: nat): (r: Option<nat>)
    ensures r.Some? ==> from <= r.value && PatternAt(s, prefix, r.value)
    ensures r.Some? ==> forall j :: from <= j < r.value ==> !PatternAt(s, prefix, j)
    ensures r.None? ==> forall j :: from <= j ==> !PatternAt(s, prefix, j)
    decreases |s| - from
  {
    if from + |prefix| >= |s| then None
    else if PatternAt(s, prefix, from) then Some(from)
    else FirstPatternFrom(s, prefix, from + 1)
  }

  /** match[1] of s.match(/prefix([a-zA-Z0-9_-]+)/), or None when it does not match. */
  function Capture(s: string, prefix: string): (r: Option<string>)
  {
    match FirstPatternFrom(s, prefix, 0)
    case None => None
    case Some(i) => Some(IdRun(s, i + |prefix|))
  }

  /** The pattern matches somewhere exactly when the capture exists. */
  lemma CaptureExists(s: string, prefix: string)
    ensures Capture(s, prefix).Some? <==> exists i :: PatternAt(s, prefix, i)
  {
    match FirstPatternFrom(s, prefix, 0)
    case None =>
    case Some(i) => assert PatternAt(s, prefix, i);
  }

  /** A capture is a non-empty run of id characters right after the prefix,
      and the run cannot be extended. */
  lemma CaptureFacts(s: string, prefix: string)
    ensures Capture(s, prefix).Some? <==> exists i :: PatternAt(s, prefix, i)
    ensures Capture(s, prefix).Some? ==>
      var i := FirstPatternFrom(s, prefix, 0).value;
      var id := Capture(s, prefix).value;
      |id| > 0 && AllIdChars(id) && StartsAt(s, prefix + id, i)
      && (i + |prefix| + |id| < |s| ==> !IsIdChar(s[i + |prefix| + |id|]))
  {
    CaptureExists(s, prefix);
    if FirstPatternFrom(s, prefix, 0).Some? {
      var i := FirstPatternFrom(s, prefix, 0).value;
      StartsAtConcat(s, prefix, IdRun(s, i + |prefix|), i);
    }
  }

  const FILE_PREFIX := "/file/d/"
  const ID_PREFIX := "id="

  const DRIVE_HOST := "drive.google.com"
  const DOCS_HOST := "docs.google.com"

  predicate IsDriveHost(url: string)
  {
    Contains(url, DRIVE_HOST) || Contains(url, DOCS_HOST)
  }

  /** getDriveFileId: the /file/d/ID form first; the id=ID form only on a
      Google Drive or Docs host. */
  function GetDriveFileId(url: string): (r: Option<string>)
    ensures url == "" ==> r.None?
    ensures Capture(url, FILE_PREFIX).Some? && url != "" ==> r == Capture(url, FILE_PREFIX)
    ensures r.Some? ==> |r.value| > 0 && AllIdChars(r.value)
    ensures r.Some? && Capture(url, FILE_PREFIX).None? ==> IsDriveHost(url) && r == Capture(url, ID_PREFIX)
    ensures url != "" && Capture(url, FILE_PREFIX).None? && IsDriveHost(url) ==> r == Capture(url, ID_PREFIX)
    ensures Capture(url, FILE_PREFIX).None? && !IsDriveHost(url) ==> r.None?
  {
    CaptureFacts(url, FILE_PREFIX);
    CaptureFacts(url, ID_PREFIX);
    if url == "" then None
    else match Capture(url, FILE_PREFIX)
      case Some(id) => Some(id)
      case None =>
        match Capture(url, ID_PREFIX)
        case Some(id) => if IsDriveHost(url) then Some(id) else None
        case None => None
  }

  const THUMB_PREFIX := "https://" + DRIVE_HOST + "/thumbnail?id="
  const THUMB_SUFFIX := "&sz=w1000"

  function Thumbnail(id: string): string
  {
    THUMB_PREFIX + id + THUMB_SUFFIX
  }

  /** getOptimizedImageUrl. */
  function GetOptimizedImageUrl(url: string): (r: string)
    ensures url == "" ==> r == ""
    ensures GetDriveFileId(url).Some? ==> r == Thumbnail(GetDriveFileId(url).value)
    ensures url != "" && GetDriveFileId(url).None? ==> r == url
  {
    if url == "" then ""
    else match GetDriveFileId(url)
      case Some(id) => Thumbnail(id)
      case None => url
  }

  /** The greedy run at index j is exactly `t` when `t` sits there and is
      followed by a character outside the class (or the end). */
  lemma {:induction false} IdRunIs(s: string, j: nat, t: string)
    requires StartsAt(s, t, j) && AllIdChars(t)
    requires j + |t| < |s| ==> !IsIdChar(s[j + |t|])
    ensures IdRun(s, j) == t
    decreases |t|
  {
    if t != [] {
      assert s[j] == t[0];
      assert s[j + 1..j + 1 + |t[1..]|] == t[1..];
      IdRunIs(s, j + 1, t[1..]);
    }
  }

  lemma StartsAtChar(s: string, t: string, i: nat, k: nat)
    requires k < |t|
    ensures StartsAt(s, t, i) ==> s[i + k] == t[k]
  {
    if StartsAt(s, t, i) {
      assert s[i..i + |t|][k] == s[i + k];
    }
  }

  lemma ThumbPrefixSlashes()
    ensures forall k :: 0 <= k < |THUMB_PREFIX| && THUMB_PREFIX[k] == '/' ==> k == 6 || k == 7 || k == 24
    ensures THUMB_PREFIX[7] == '/' && THUMB_PREFIX[8] == 'd' && THUMB_PREFIX[25] == 't'
  {
  }

  lemma ThumbPrefixLetterI()
    ensures forall k :: 0 <= k < 35 && THUMB_PREFIX[k] == 'i' ==> k == 10 || k == 32
  {
  }

  lemma ThumbnailChars(id: string, j: nat)
    requires j < |Thumbnail(id)|
    ensures j < 38 ==> Thumbnail(id)[j] == THUMB_PREFIX[j]
    ensures 38 <= j < 38 + |id| ==> Thumbnail(id)[j] == id[j - 38]
    ensures 38 + |id| <= j ==> Thumbnail(id)[j] == THUMB_SUFFIX[j - 38 - |id|]
  {
  }

  /** No match of the /file/d/ form starts at index j of the thumbnail URL. */
  lemma ThumbnailNoFileFormAt(id: string, j: nat)
    requires AllIdChars(id)
    ensures !PatternAt(Thumbnail(id), FILE_PREFIX, j)
  {
    var s := Thumbnail(id);
    if j + 1 < |s| {
      ThumbPrefixSlashes();
      StartsAtChar(s, FILE_PREFIX, j, 0);
      StartsAtChar(s, FILE_PREFIX, j, 1);
      ThumbnailChars(id, j);
      ThumbnailChars(id, j + 1);
      if j < 38 && s[j] == '/' {
        assert j == 6 || j == 7 || j == 24;
        assert s[j + 1] != 'f';
      } else if 38 <= j < 38 + |id| {
        assert IsIdChar(id[j - 38]);
      } else if 38 + |id| <= j {
        assert '/' !in THUMB_SUFFIX;
      }
    }
  }

  /** The thumbnail URL has no match of the /file/d/ form. */
  lemma ThumbnailHasNoFileForm(id: string)
    requires AllIdChars(id)
    ensures FirstPatternFrom(Thumbnail(id), FILE_PREFIX, 0).None?
  {
    forall j: nat
      ensures !PatternAt(Thumbnail(id), FILE_PREFIX, j)
    {
      ThumbnailNoFileFormAt(id, j);
    }
  }

  /** Its first match of the id= form is the one just before the id. */
  lemma ThumbnailFirstIdForm(id: string)
    requires |id| > 0 && AllIdChars(id)
    ensures FirstPatternFrom(Thumbnail(id), ID_PREFIX, 0) == Some(35)
  {
    var s := Thumbnail(id);
    ThumbPrefixLetterI();
    assert s[..38] == THUMB_PREFIX;
    assert s[35..38] == ID_PREFIX;
    ThumbnailChars(id, 38);
    assert IsIdChar(id[0]);
    assert PatternAt(s, ID_PREFIX, 35);
    forall j: nat | j < 35
      ensures !PatternAt(s, ID_PREFIX, j)
    {
      StartsAtChar(s, ID_PREFIX, j, 0);
      StartsAtChar(s, ID_PREFIX, j, 1);
      ThumbnailChars(id, j);
      ThumbnailChars(id, j + 1);
      if s[j] == 'i' {
        assert j == 10 || j == 32;
      }
    }
  }

  /** The thumbnail URL leads back to the same file id, through the id= form. */
  lemma ThumbnailFileId(id: string)
    requires |id| > 0 && AllIdChars(id)
    ensures GetDriveFileId(Thumbnail(id)) == Some(id)
  {
    var s := Thumbnail(id);
    ThumbnailHasNoFileForm(id);
    ThumbnailFirstIdForm(id);
    assert s[38..38 + |id|] == id;
    ThumbnailChars(id, 38 + |id|);
    IdRunIs(s, 38, id);
    assert s[..38] == THUMB_PREFIX;
    assert ("https://" + DRIVE_HOST + "/thumbnail?id=")[8..24] == DRIVE_HOST;
    assert s[8..24] == DRIVE_HOST;
    ContainsAt(s, DRIVE_HOST, 8);
  }

  /** getOptimizedImageUrl is idempotent. */
  lemma ImageUrlIdempotent(url: string)
    ensures GetOptimizedImageUrl(GetOptimizedImageUrl(url)) == GetOptimizedImageUrl(url)
  {
    if url != "" {
      match GetDriveFileId(url)
      case Some(id) => ThumbnailFileId(id);
      case None =>
    }
  }

  const PREVIEW_PREFIX := "https://drive.google.com/file/d/"
  const PREVIEW_SUFFIX := "/preview"
  const EMBED_PREFIX := "https://www.youtube.com/embed/"

  function DrivePreview(id: string): string
  {
    PREVIEW_PREFIX + id + PREVIEW_SUFFIX
  }

  predicate IsYouTube(url: string)
  {
    Contains(url, "youtube.com") || Contains(url, "youtu.be")
  }

  /** Where the id taken after "v=" stops: at the end of the URL, at an '&',
      or where the next "v=" begins. */
  predicate WatchIdStop(url: string, p: nat)
  {
    p == |url| || (p < |url| && url[p] == '&') || StartsAt(url, "v=", p)
  }

  /** An occurrence in a suffix of `s` is an occurrence in `s`, shifted. */
  lemma StartsAtSuffix(s: string, t: string, from: nat, k: nat)
    requires from <= |s|
    ensures StartsAt(s[from..], t, k) <==> StartsAt(s, t, from + k)
  {
    if from + k + |t| <= |s| {
      assert s[from..][k..k + |t|] == s[from + k..from + k + |t|];
    }
  }

  /** split('&')[0] holds no '&' and stops at the first one. */
  lemma BeforeAmpersand(part: string)
    ensures var r := BeforeFirst(part, "&");
      '&' !in r && (|r| < |part| ==> part[|r|] == '&')
  {
    var r := BeforeFirst(part, "&");
    if '&' in r {
      var k :| 0 <= k < |r| && r[k] == '&';
      assert StartsAt(part, "&", k);
    }
    if |r| < |part| {
      assert StartsAt(part, "&", |r|);
    }
  }

  /** split('v=')[0] holds no start of "v=" and stops at the first one. */
  lemma BeforeNextV(seg: string)
    ensures var part := BeforeFirst(seg, "v=");
      && (forall k :: 0 <= k < |part| ==> !StartsAt(seg, "v=", k))
      && (|part| < |seg| ==> StartsAt(seg, "v=", |part|))
  {
  }

  /** The id of a link with "v=": split('v=')[1] is the text from just after
      the first "v=" up to the next "v=" or the end, and split('&')[0] cuts it
      at its first '&'. So the id is the text from just after the first "v="
      up to the first stop. */
  lemma WatchIdFacts(url: string)
    requires Contains(url, "v=")
    ensures var start := IndexOf(url, "v=").value + 2;
      var r := BeforeFirst(SecondSegment(url, "v="), "&");
      && start + |r| <= |url| && r == url[start..start + |r|]
      && '&' !in r
      && (forall k :: start <= k < start + |r| ==> !StartsAt(url, "v=", k))
      && WatchIdStop(url, start + |r|)
  {
    var start := IndexOf(url, "v=").value + 2;
    var seg := url[start..];
    var part := BeforeFirst(seg, "v=");
    var r := BeforeFirst(part, "&");
    BeforeAmpersand(part);
    BeforeNextV(seg);
    assert r == url[start..start + |r|];
    forall k | start <= k < start + |r|
      ensures !StartsAt(url, "v=", k)
    {
      StartsAtSuffix(url, "v=", start, k - start);
    }
    if |r| < |part| {
      assert url[start + |r|] == part[|r|];
    } else if |part| < |seg| {
      StartsAtSuffix(url, "v=", start, |part|);
    }
  }

  /** The video id a YouTube link yields: url.split('v=')[1].split('&')[0]
      when the URL contains "v=", that is the text from just after the first
      "v=" up to the first '&', the next "v=" or the end; else
      url.split('/').pop(), the text after the last '/'. */
  function YouTubeVideoId(url: string): (r: string)
    ensures Contains(url, "v=") ==>
      var start := IndexOf(url, "v=").value + 2;
      && start + |r| <= |url| && r == url[start..start + |r|]
      && '&' !in r
      && (forall k :: start <= k < start + |r| ==> !StartsAt(url, "v=", k))
      && WatchIdStop(url, start + |r|)
    ensures !Contains(url, "v=") ==>
      && |r| <= |url| && r == url[|url| - |r|..]
      && '/' !in r
      && (|r| < |url| ==> url[|url| - |r| - 1] == '/')
  {
    if Contains(url, "v=") then
      WatchIdFacts(url);
      BeforeFirst(SecondSegment(url, "v="), "&")
    else AfterLast(url, '/')
  }

  /** getOptimizedVideoUrl. */
  function GetOptimizedVideoUrl(url: string): (r: string)
    ensures url == "" ==> r == ""
    ensures GetDriveFileId(url).Some? ==> r == DrivePreview(GetDriveFileId(url).value)
    ensures url != "" && GetDriveFileId(url).None? && IsYouTube(url) && YouTubeVideoId(url) != "" ==>
      r == EMBED_PREFIX + YouTubeVideoId(url)
    ensures url != "" && GetDriveFileId(url).None? && (!IsYouTube(url) || YouTubeVideoId(url) == "") ==>
      r == url
  {
    if url == "" then ""
    else match GetDriveFileId(url)
      case Some(id) => DrivePreview(id)
      case None =>
        if IsYouTube(url) && YouTubeVideoId(url) != "" then EMBED_PREFIX + YouTubeVideoId(url)
        else url
  }

  /** The first match of the /file/d/ form in the preview URL is the one
      just before the id. */
  lemma PreviewFirstFileForm(id: string)
    requires |id| > 0 && AllIdChars(id)
    ensures FirstPatternFrom(DrivePreview(id), FILE_PREFIX, 0) == Some(24)
  {
    var s := DrivePreview(id);
    assert |PREVIEW_PREFIX| == 32;
    assert s[..32] == PREVIEW_PREFIX;
    assert PREVIEW_PREFIX[24..32] == FILE_PREFIX;
    assert s[24..32] == FILE_PREFIX;
    assert s[32] == id[0];
    assert PatternAt(s, FILE_PREFIX, 24);
    forall j: nat | j < 24
      ensures !PatternAt(s, FILE_PREFIX, j)
    {
      PreviewNoFileFormBefore(id, j);
    }
  }

  lemma PreviewNoFileFormBefore(id: string, j: nat)
    requires j < 24
    ensures !PatternAt(DrivePreview(id), FILE_PREFIX, j)
  {
    var s := DrivePreview(id);
    StartsAtChar(s, FILE_PREFIX, j, 0);
    StartsAtChar(s, FILE_PREFIX, j, 1);
    assert s[..32] == PREVIEW_PREFIX;
    assert s[j] == PREVIEW_PREFIX[j] && s[j + 1] == PREVIEW_PREFIX[j + 1];
    if s[j] == '/' {
      assert j == 6 || j == 7;
    }
  }

  /** The Drive preview URL leads back to the same file id, through the
      /file/d/ form, so rewriting a Drive video twice changes nothing. */
  lemma PreviewFileId(id: string)
    requires |id| > 0 && AllIdChars(id)
    ensures GetDriveFileId(DrivePreview(id)) == Some(id)
    ensures GetOptimizedVideoUrl(DrivePreview(id)) == DrivePreview(id)
  {
    var s := DrivePreview(id);
    PreviewFirstFileForm(id);
    assert StartsAt(s, id, 32) by { assert s[32..32 + |id|] == id; }
    assert s[32 + |id|] == '/';
    IdRunIs(s, 32, id);
  }
}

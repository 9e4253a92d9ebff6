/**
 * `downloadZoomChatFile` of index.js: list the recordings of a meeting, pick
 * the download address of the first chat transcript among them, and fetch it.
 *
 * The two replies are inputs. A reply the HTTP client rejects (no reply at
 * all, or a status outside 2xx) makes the function throw; a listing status
 * that the client accepts but that is not exactly 200 makes it answer `null`.
 */
module Transcript {
  import opened Options
  import opened Http

  /** One entry of `recording_files` in the listing reply. */
  datatype Recording = Recording(fileExtension: string, downloadUrl: string)

  /** The reply to the recording listing. */
  datatype ListingReply =
    | ListingUnreachable
    | Listing(status: int, recordingFiles: seq<Recording>)

  /** The reply to the transcript download. */
  datatype DownloadReply =
    | DownloadUnreachable
    | Downloaded(status: int, body: string)

  /** How the function ends: it throws, or it returns the transcript or `null` (`None`). */
  datatype Fetch = Threw | Returned(content: Option<string>)

  /** The requests issued, in order, and how the function ended. */
  datatype Resolution = Resolution(requests: seq<Request>, fetch: Fetch)

  const TranscriptExtension: string := "TXT"

  function RecordingsUrl(meetingId: string): string {
    "https://api.zoom.us/v2/meetings/" + meetingId + "/recordings"
  }

  /** The download address of the first recording whose extension is exactly "TXT". */
  function FirstTxtUrl(recordings: seq<Recording>): Option<string> {
    if recordings == [] then None
    else if recordings[0].fileExtension == TranscriptExtension then Some(recordings[0].downloadUrl)
    else FirstTxtUrl(recordings[1..])
  }

  /** When an address is chosen, it belongs to a transcript and no transcript comes before it. */
  lemma {:induction false} FirstTxtUrlIsFirst(recordings: seq<Recording>) returns (k: nat)
    requires FirstTxtUrl(recordings).Some?
    ensures k < |recordings| && recordings[k].fileExtension == TranscriptExtension
    ensures FirstTxtUrl(recordings) == Some(recordings[k].downloadUrl)
    ensures forall j :: 0 <= j < k ==> recordings[j].fileExtension != TranscriptExtension
  {
    if recordings[0].fileExtension == TranscriptExtension {
      k := 0;
    } else {
      var k' := FirstTxtUrlIsFirst(recordings[1..]);
      k := k' + 1;
    }
  }

  /** The first transcript is chosen, whatever transcripts follow it. */
  lemma {:induction false} FirstTxtUrlAt(recordings: seq<Recording>, k: nat)
    requires k < |recordings| && recordings[k].fileExtension == TranscriptExtension
    requires forall j :: 0 <= j < k ==> recordings[j].fileExtension != TranscriptExtension
    ensures FirstTxtUrl(recordings) == Some(recordings[k].downloadUrl)
  {
    if k > 0 {
      FirstTxtUrlAt(recordings[1..], k - 1);
    }
  }

  /** No address is chosen exactly when no recording is a transcript. */
  lemma {:induction false} FirstTxtUrlNone(recordings: seq<Recording>)
    ensures FirstTxtUrl(recordings).None? <==>
              forall j :: 0 <= j < |recordings| ==> recordings[j].fileExtension != TranscriptExtension
  {
    if recordings != [] {
      FirstTxtUrlNone(recordings[1..]);
      assert forall j :: 1 <= j < |recordings| ==> recordings[j] == recordings[1..][j - 1];
    }
  }

  /** The listing was resolved by the client with status 200. */
  predicate ListedOk(listing: ListingReply) {
    listing.Listing? && listing.status == 200
  }

  /** The address that is downloaded: a non-empty first-transcript address of a 200 listing. */
  predicate ChoosesDownload(listing: ListingReply) {
    ListedOk(listing) && FirstTxtUrl(listing.recordingFiles).Some? && FirstTxtUrl(listing.recordingFiles).value != ""
  }

  /** The listing reply makes the client throw. */
  predicate ListingRejected(listing: ListingReply) {
    listing.ListingUnreachable? || !ClientAccepts(listing.status)
  }

  /** The download reply makes the client throw. */
  predicate DownloadRejected(download: DownloadReply) {
    download.DownloadUnreachable? || !ClientAccepts(download.status)
  }

  /**
   * What `downloadZoomChatFile(meetingId, accessToken)` does, given the two
   * replies: the listing is always requested first; the transcript is
   * requested exactly when the listing is a 200 reply whose first transcript
   * has a non-empty address, and then with that address; the result is the
   * downloaded body, `null`, or a throw.
   */
  function ResolveTranscript(meetingId: string, accessToken: string, listing: ListingReply, download: DownloadReply): (res: Resolution)
    ensures 1 <= |res.requests| <= 2
    ensures forall k :: 0 <= k < |res.requests| ==> res.requests[k].Get?
    ensures res.requests[0] == Get(RecordingsUrl(meetingId), accessToken)
    ensures |res.requests| == 2 <==> !ListingRejected(listing) && ChoosesDownload(listing)
    ensures |res.requests| == 2 ==> res.requests[1] == Get(FirstTxtUrl(listing.recordingFiles).value, accessToken)
    ensures res.fetch == Threw <==> ListingRejected(listing) || (ChoosesDownload(listing) && DownloadRejected(download))
    ensures res.fetch == Returned(None) <==> !ListingRejected(listing) && !ChoosesDownload(listing)
    ensures res.fetch.Returned? && res.fetch.content.Some? ==>
              |res.requests| == 2 && download.Downloaded? && res.fetch.content.value == download.body
  {
    var list := Get(RecordingsUrl(meetingId), accessToken);
    if ListingRejected(listing) then Resolution([list], Threw)
    else if listing.status != 200 then Resolution([list], Returned(None))
    else match FirstTxtUrl(listing.recordingFiles)
      case None => Resolution([list], Returned(None))
      case Some(url) =>
        if url == "" then Resolution([list], Returned(None))
        else if DownloadRejected(download) then Resolution([list, Get(url, accessToken)], Threw)
        else Resolution([list, Get(url, accessToken)], Returned(Some(download.body)))
  }

  /**
   * A later transcript in the listing is never downloaded: with a first
   * transcript at `k`, the second request, if any, is for its address.
   */
  lemma OnlyFirstTranscriptDownloaded(meetingId: string, accessToken: string, listing: ListingReply, download: DownloadReply, k: nat)
    requires listing.Listing? && k < |listing.recordingFiles|
    requires listing.recordingFiles[k].fileExtension == TranscriptExtension
    requires forall j :: 0 <= j < k ==> listing.recordingFiles[j].fileExtension != TranscriptExtension
    ensures var res := ResolveTranscript(meetingId, accessToken, listing, download);
      |res.requests| == 2 ==> res.requests[1] == Get(listing.recordingFiles[k].downloadUrl, accessToken)
  {
    FirstTxtUrlAt(listing.recordingFiles, k);
  }

  /** `downloadZoomChatFile` step by step: the search loop stops at the first transcript. */
  method DownloadChatFile(meetingId: string, accessToken: string, listing: ListingReply, download: DownloadReply) returns (res: Resolution)
    ensures res == ResolveTranscript(meetingId, accessToken, listing, download)
  {
    var requests := [Get(RecordingsUrl(meetingId), accessToken)];
    if listing.ListingUnreachable? || !ClientAccepts(listing.status) {
      return Resolution(requests, Threw);
    }
    if listing.status == 200 {
      var recordings := listing.recordingFiles;
      var chatFileUrl: Option<string> := None;
      var i := 0;
      while i < |recordings|
        invariant i <= |recordings|
        invariant chatFileUrl == None
        invariant FirstTxtUrl(recordings[i..]) == FirstTxtUrl(recordings)
      {
        if recordings[i].fileExtension == TranscriptExtension {
          chatFileUrl := Some(recordings[i].downloadUrl);
          break;
        }
        assert recordings[i..][1..] == recordings[i + 1..];
        i := i + 1;
      }
      if chatFileUrl.Some? && chatFileUrl.value != "" {
        requests := requests + [Get(chatFileUrl.value, accessToken)];
        if download.DownloadUnreachable? || !ClientAccepts(download.status) {
          return Resolution(requests, Threw);
        }
        return Resolution(requests, Returned(Some(download.body)));
      }
    }
    return Resolution(requests, Returned(None));
  }
}

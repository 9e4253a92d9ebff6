/**
 * The control flow of index.js: `main`, the `/webhook` handler that runs it
 * for ended meetings, and the `/oauth/callback` handler that stores the Zoom
 * access token `main` reads.
 *
 * Every reply from Zoom or Slack is an input; a run yields the requests the
 * service issues, in order, and the outcome `main` logs.
 */
module Dispatcher {
  import opened Options
  import opened Http
  import opened LinkExtractor
  import opened Transcript
  import opened Notifier

  const MeetingEnded: string := "meeting.ended"
  const TokenUrl: string := "https://zoom.us/oauth/token"
  const RedirectUri: string := "https://zoom-links-slack-message.onrender.com/oauth/callback"

  const WebhookAnswer: Response := Response(200, "OK")
  const OAuthCompleted: Response := Response(200, "OAuth flow completed. You can close this window.")
  const OAuthFailed: Response := Response(500, "OAuth flow failed.")

  /** The reply to the Slack post: none, or a status with the `ok` and `error` fields of its body. */
  datatype SlackReply =
    | SlackUnreachable
    | SlackAnswered(status: int, ok: bool, error: string)

  /** The reply to the token exchange: none, or a status with the `access_token` field ("" when absent). */
  datatype TokenReply =
    | ExchangeUnreachable
    | ExchangeAnswered(status: int, accessToken: string)

  /** How a run ends, as told by what the service logs. */
  datatype Outcome =
    | Ignored                      // the webhook event is not the end of a meeting
    | MissingCredential            // "Access token not found for user"
    | NoTranscript                 // "Failed to retrieve the chat file."
    | NoLinks                      // "No links found in the chat file."
    | Delivered                    // "Message sent successfully!"
    | SlackRefused(error: string)  // "Failed to send message: <error>"
    | Aborted                      // `main` threw; the webhook handler logs the error

  /** The requests of one run of `main`, in order, and its outcome. */
  datatype Run = Run(requests: seq<Request>, outcome: Outcome)

  /** One webhook delivery: the answer sent to Zoom, the requests made, and the outcome. */
  datatype WebhookRun = WebhookRun(response: Response, requests: seq<Request>, outcome: Outcome)

  /** The chat file `main` goes on with: a returned body that is a non-empty string. */
  function ChatContent(fetch: Fetch): Option<string> {
    if fetch.Returned? && fetch.content.Some? && fetch.content.value != "" then fetch.content else None
  }

  predicate SlackRejected(slack: SlackReply) {
    slack.SlackUnreachable? || !ClientAccepts(slack.status)
  }

  predicate ExchangeSucceeds(exchange: TokenReply) {
    exchange.ExchangeAnswered? && ClientAccepts(exchange.status)
  }

  /** No message is posted to Slack. */
  predicate NothingPosted(requests: seq<Request>) {
    forall k :: 0 <= k < |requests| ==> !requests[k].PostMessage?
  }

  /**
   * `main(meetingId, userId)` with `accessToken` read from the token store:
   * nothing happens without a token; otherwise the transcript is fetched, its
   * links extracted and, when there are any, posted to the Slack channel.
   */
  function MainFlow(meetingId: string, accessToken: string, listing: ListingReply, download: DownloadReply, slack: SlackReply): (run: Run)
    ensures run.outcome != Ignored
    ensures run.outcome == MissingCredential <==> accessToken == ""
    ensures accessToken == "" ==> run.requests == []
    ensures accessToken != "" ==>
              var res := ResolveTranscript(meetingId, accessToken, listing, download);
              |res.requests| <= |run.requests| && run.requests[..|res.requests|] == res.requests
    ensures accessToken != "" && ResolveTranscript(meetingId, accessToken, listing, download).fetch == Threw ==>
              run.outcome == Aborted && run.requests == ResolveTranscript(meetingId, accessToken, listing, download).requests
    ensures run.outcome == NoTranscript <==>
              var fetch := ResolveTranscript(meetingId, accessToken, listing, download).fetch;
              accessToken != "" && fetch != Threw && ChatContent(fetch).None?
    ensures run.outcome == NoLinks <==>
              var content := ChatContent(ResolveTranscript(meetingId, accessToken, listing, download).fetch);
              accessToken != "" && content.Some? && ExtractLinks(content.value) == []
    ensures run.outcome == NoTranscript || run.outcome == NoLinks ==>
              run.requests == ResolveTranscript(meetingId, accessToken, listing, download).requests
  {
    if accessToken == "" then Run([], MissingCredential)
    else
      var res := ResolveTranscript(meetingId, accessToken, listing, download);
      if res.fetch == Threw then Run(res.requests, Aborted)
      else match ChatContent(res.fetch)
        case None => Run(res.requests, NoTranscript)
        case Some(content) =>
          var links := ExtractLinks(content);
          if links == [] then Run(res.requests, NoLinks)
          else
            var requests := res.requests + [SlackPost(ComposeMessage(links))];
            if SlackRejected(slack) then Run(requests, Aborted)
            else if slack.ok then Run(requests, Delivered)
            else Run(requests, SlackRefused(slack.error))
  }

  /** A message is posted exactly when there is a token, a non-empty chat file and at least one link in it. */
  lemma PostedExactlyWithLinks(meetingId: string, accessToken: string, listing: ListingReply, download: DownloadReply, slack: SlackReply)
    ensures var content := ChatContent(ResolveTranscript(meetingId, accessToken, listing, download).fetch);
      !NothingPosted(MainFlow(meetingId, accessToken, listing, download, slack).requests) <==>
        accessToken != "" && content.Some? && ExtractLinks(content.value) != []
  {
    var res := ResolveTranscript(meetingId, accessToken, listing, download);
    var run := MainFlow(meetingId, accessToken, listing, download, slack);
    if accessToken != "" && ChatContent(res.fetch).Some? && ExtractLinks(ChatContent(res.fetch).value) != [] {
      assert run.requests[|run.requests| - 1].PostMessage?;
    } else {
      assert run.requests == [] || run.requests == res.requests;
    }
  }

  /**
   * A posted message is the last request, goes to the configured channel, and
   * lists exactly the links of the chat file, one per line after the header.
   */
  lemma PostedMessage(meetingId: string, accessToken: string, listing: ListingReply, download: DownloadReply, slack: SlackReply)
    requires !NothingPosted(MainFlow(meetingId, accessToken, listing, download, slack).requests)
    ensures var requests := MainFlow(meetingId, accessToken, listing, download, slack).requests;
      var links := ExtractLinks(ChatContent(ResolveTranscript(meetingId, accessToken, listing, download).fetch).value);
      && requests[|requests| - 1] == SlackPost(Header + Join(links, "\n"))
      && requests[|requests| - 1].channel == SlackChannel
      && ExtractLinks(requests[|requests| - 1].text) == links
  {
    PostedExactlyWithLinks(meetingId, accessToken, listing, download, slack);
    ComposeExtracted(ChatContent(ResolveTranscript(meetingId, accessToken, listing, download).fetch).value);
  }

  /**
   * The order of the requests: the recording listing first, then the
   * transcript download, then the Slack post; a post needs both fetches before it.
   */
  lemma RequestOrder(meetingId: string, accessToken: string, listing: ListingReply, download: DownloadReply, slack: SlackReply)
    ensures var run := MainFlow(meetingId, accessToken, listing, download, slack);
      && |run.requests| <= 3
      && (run.requests != [] ==> run.requests[0] == Get(RecordingsUrl(meetingId), accessToken))
      && (forall k :: 0 <= k < |run.requests| - 1 ==> run.requests[k].Get?)
      && (forall k :: 0 <= k < |run.requests| ==> run.requests[k].PostMessage? ==> k == 2)
  {
  }

  /** After a post, the outcome is decided by the Slack reply alone. */
  lemma OutcomeAfterPost(meetingId: string, accessToken: string, listing: ListingReply, download: DownloadReply, slack: SlackReply)
    requires !NothingPosted(MainFlow(meetingId, accessToken, listing, download, slack).requests)
    ensures var outcome := MainFlow(meetingId, accessToken, listing, download, slack).outcome;
      && (outcome == Delivered <==> !SlackRejected(slack) && slack.ok)
      && (outcome.SlackRefused? <==> !SlackRejected(slack) && !slack.ok)
      && (outcome.SlackRefused? ==> outcome.error == slack.error)
      && (outcome == Aborted <==> SlackRejected(slack))
  {
  }

  /** A chat file in which neither scheme occurs ends the run with "No links found" and posts nothing. */
  lemma NoSchemeNothingPosted(meetingId: string, accessToken: string, listing: ListingReply, download: DownloadReply, slack: SlackReply)
    requires accessToken != ""
    requires ChatContent(ResolveTranscript(meetingId, accessToken, listing, download).fetch).Some?
    requires var text := ChatContent(ResolveTranscript(meetingId, accessToken, listing, download).fetch).value;
      forall p :: !OccursAt(text, p, HttpScheme) && !OccursAt(text, p, HttpsScheme)
    ensures MainFlow(meetingId, accessToken, listing, download, slack).outcome == NoLinks
    ensures NothingPosted(MainFlow(meetingId, accessToken, listing, download, slack).requests)
  {
    var text := ChatContent(ResolveTranscript(meetingId, accessToken, listing, download).fetch).value;
    NoSchemeNoLinks(text);
  }

  /**
   * A meeting whose listing holds a video, then a transcript, then a second
   * transcript, and whose chat file names two links: the first transcript is
   * downloaded and the message lists both links, one per line.
   */
  lemma DeliveredExample(meetingId: string, accessToken: string, url: string, a: string, b: string)
    requires accessToken != "" && url != ""
    requires IsLink(a) && IsLink(b)
    ensures var run := MainFlow(meetingId, accessToken,
                                Listing(200, [Recording("MP4", "video"), Recording("TXT", url), Recording("TXT", "later")]),
                                Downloaded(200, "see " + a + " and " + b),
                                SlackAnswered(200, true, ""));
      && run.outcome == Delivered
      && run.requests == [Get(RecordingsUrl(meetingId), accessToken), Get(url, accessToken),
                          SlackPost(Header + a + "\n" + b)]
  {
    var recordings := [Recording("MP4", "video"), Recording("TXT", url), Recording("TXT", "later")];
    var text := "see " + a + " and " + b;
    assert recordings[0].fileExtension != TranscriptExtension;
    FirstTxtUrlAt(recordings, 1);
    assert ResolveTranscript(meetingId, accessToken, Listing(200, recordings), Downloaded(200, text)).fetch
        == Returned(Some(text));
    assert |text| > 0;
    TwoLinksBetweenWords(a, b);
    ComposeTwo(a, b);
  }

  /**
   * The `/webhook` handler: an ended meeting runs `main`, any other event is
   * ignored, and Zoom is answered 200 "OK" in every case, a throw included.
   */
  function HandleWebhook(event: string, meetingId: string, accessToken: string, listing: ListingReply, download: DownloadReply, slack: SlackReply): (w: WebhookRun)
    ensures w.response == Response(200, "OK")
    ensures w.outcome == Ignored <==> event != MeetingEnded
    ensures w.outcome == Ignored ==> w.requests == []
    ensures event == MeetingEnded ==> Run(w.requests, w.outcome) == MainFlow(meetingId, accessToken, listing, download, slack)
  {
    if event == MeetingEnded then
      var run := MainFlow(meetingId, accessToken, listing, download, slack);
      WebhookRun(WebhookAnswer, run.requests, run.outcome)
    else WebhookRun(WebhookAnswer, [], Ignored)
  }

  /** Without a stored token, no webhook delivery makes any request. */
  lemma NoTokenNoRequests(event: string, meetingId: string, listing: ListingReply, download: DownloadReply, slack: SlackReply)
    ensures HandleWebhook(event, meetingId, "", listing, download, slack).requests == []
    ensures event == MeetingEnded ==> HandleWebhook(event, meetingId, "", listing, download, slack).outcome == MissingCredential
  {
  }

  /** The service with its one piece of state, the Zoom access token the OAuth callback stores. */
  class Server {
    var accessTokenStorage: string

    constructor()
      ensures accessTokenStorage == ""
    {
      accessTokenStorage := "";
    }

    /**
     * `/oauth/callback?code=...`: exchange the code for a token; on success
     * store the token and confirm, otherwise keep the old token and answer 500.
     */
    method OAuthCallback(code: string, exchange: TokenReply) returns (response: Response, requests: seq<Request>)
      modifies this
      ensures requests == [TokenExchange(TokenUrl, code, RedirectUri)]
      ensures ExchangeSucceeds(exchange) ==> accessTokenStorage == exchange.accessToken && response == OAuthCompleted
      ensures !ExchangeSucceeds(exchange) ==> accessTokenStorage == old(accessTokenStorage) && response == OAuthFailed
    {
      requests := [TokenExchange(TokenUrl, code, RedirectUri)];
      if exchange.ExchangeUnreachable? || !ClientAccepts(exchange.status) {
        response := OAuthFailed;
        return;
      }
      accessTokenStorage := exchange.accessToken;
      response := OAuthCompleted;
    }

    /** `main(meetingId, userId)`, step by step, reading the stored token. */
    method RunMain(meetingId: string, listing: ListingReply, download: DownloadReply, slack: SlackReply) returns (run: Run)
      ensures run == MainFlow(meetingId, accessTokenStorage, listing, download, slack)
    {
      var accessToken := accessTokenStorage;
      if accessToken == "" {
        return Run([], MissingCredential);
      }
      var res := DownloadChatFile(meetingId, accessToken, listing, download);
      if res.fetch == Threw {
        return Run(res.requests, Aborted);
      }
      var chatFileContent := ChatContent(res.fetch);
      if chatFileContent.None? {
        return Run(res.requests, NoTranscript);
      }
      var links := ExtractLinks(chatFileContent.value);
      if links == [] {
        return Run(res.requests, NoLinks);
      }
      var messageText := ComposeMessage(links);
      var requests := res.requests + [SlackPost(messageText)];
      if SlackRejected(slack) {
        return Run(requests, Aborted);
      }
      if slack.ok {
        return Run(requests, Delivered);
      }
      return Run(requests, SlackRefused(slack.error));
    }

    /** `/webhook`: run `main` for an ended meeting, catch what it throws, answer 200 "OK". */
    method Webhook(event: string, meetingId: string, listing: ListingReply, download: DownloadReply, slack: SlackReply) returns (w: WebhookRun)
      ensures w == HandleWebhook(event, meetingId, accessTokenStorage, listing, download, slack)
    {
      var requests: seq<Request> := [];
      var outcome := Ignored;
      if event == MeetingEnded {
        var run := RunMain(meetingId, listing, download, slack);
        requests, outcome := run.requests, run.outcome;
      }
      return WebhookRun(WebhookAnswer, requests, outcome);
    }
  }
}

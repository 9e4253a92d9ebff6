# zoom-links-slack-message, modelled in Dafny

The service waits for Zoom's "meeting ended" webhook. It then lists the
meeting's cloud recordings, downloads the first chat transcript, and picks out
every `http://` or `https://` link in it. If there are any links, it posts them
to a Slack channel as one message. A separate OAuth callback exchanges a Zoom
authorization code for an access token and keeps that token in memory. Every
run of `main` reads it.

The model covers `index.js` in six modules:

- `Options` and `Http` hold the shared vocabulary: an optional value for
  JavaScript's `null`, the inbound responses, the outbound requests, and the
  HTTP client's rule that only a 2xx status resolves.
- `LinkExtractor` models `extractLinksFromZoomChat`. It writes the global
  regular expression `/https?:\/\/\S+/g` under `String.prototype.match` out as a
  left-to-right scanner over positions. `\s` is the full ECMAScript class:
  WhiteSpace plus LineTerminator. A `null` from `match` is the empty sequence.
- `Transcript` models `downloadZoomChatFile`. The specification function
  `ResolveTranscript` gives the requests issued and the result: the transcript,
  `null`, or a throw. The method `DownloadChatFile` runs the same search loop,
  with its `break`, and is proved equal to it.
- `Notifier` models the message `main` composes (header line, then the links
  joined by `"\n"`) and the Slack request it makes.
- `Dispatcher` models the decisions of `main` and of the `/webhook` handler as
  functions of the cached token and the replies. Its class `Server` holds
  `accessTokenStorage`. The `/oauth/callback` method writes that field, and the
  `main` and `/webhook` methods read it.

No network call is performed. Each reply (the token exchange, the recording
listing, the transcript download, the Slack post) is an input. Each run yields
the list of requests the service would issue, in order, plus the outcome that
`main` logs.

In these corner cases the model does exactly what the code does:

- A scheme followed directly by whitespace or by the end of the text is not a
  link, because `\S+` needs at least one character.
- A transcript body that is the empty string counts as "failed to retrieve",
  because it is falsy.
- A first `TXT` entry with an empty `download_url` ends the search with `null`.
  A later `TXT` entry is never tried.
- A listing status in the 2xx range other than 200 returns `null`. Any other
  status makes the HTTP client throw, and the webhook handler catches the throw.

## Model

| member | source | states |
|---|---|---|
| LinkExtractor.IsWhitespace | index.js:87 | the characters `\s` matches: tab, line feed, vertical tab, form feed, carriage return, space, U+00A0, U+1680, U+2000 to U+200A, U+2028, U+2029, U+202F, U+205F, U+3000 and U+FEFF |
| LinkExtractor.SchemeLength | index.js:87 | the length of the `https?:\/\/` part at a position: 8 where "https://" occurs, else 7 where "http://" occurs, else 0 |
| LinkExtractor.RunEnd | index.js:87 | where the `\S+` run starting at a position ends: the first whitespace at or after it, or the end of the text; never before the start |
| LinkExtractor.MatchAt | index.js:87 | one match attempt at a position: a scheme, at least one non-whitespace character after it, then the whole run; the end, when there is one, lies after the start and within the text |
| LinkExtractor.ScanFrom | index.js:88 | the global scan under `match`: try a match at the current position; on success record it and resume at its end, otherwise move one character on |
| LinkExtractor.SchemeLengthOccurs | index.js:87 | the `https?:\/\/` part matches 8 characters exactly where "https://" occurs and 7 exactly where "http://" occurs; otherwise it matches nothing (the optional `s` is tried first) |
| LinkExtractor.RunEndIsFirstWhitespace | index.js:87 | the `\S+` run ends at the first whitespace character, or at the end of the text |
| LinkExtractor.MatchIsGreedy | index.js:87 | a match holds no whitespace and is followed by whitespace or by the end of the text: `\S+` takes every character it can |
| LinkExtractor.MatchIsLink | index.js:87 | a match starts with "http://" or "https://", has at least one character after the scheme, and holds no whitespace |
| LinkExtractor.ScanFromBounds | index.js:88 | every span found from position `i` on is a non-empty piece of the text that starts at or after `i` |
| LinkExtractor.ScanFromMatches | index.js:87-88 | every span is a match of the regular expression at its own start; the spans are in text order and do not overlap |
| LinkExtractor.ScanFromCovers | index.js:87-88 | every position where a match could start lies inside some span, so the scan misses no link |
| LinkExtractor.ExtractLinks | index.js:85-89 | there is one link per span, in order; each link is the text of its span; each starts with "http://" or "https://", has a character after the scheme, and holds no whitespace |
| LinkExtractor.ExtractLinksIsGlobalMatch | index.js:87-88 | the links are the global match: each span is a match within the text, greedy, ordered and non-overlapping, and every possible match start is covered |
| LinkExtractor.NoLinksIff | index.js:87-88 | the result is empty exactly when the regular expression matches at no position (both directions) |
| LinkExtractor.NoSchemeNoLinks | index.js:87-88 | text in which neither "http://" nor "https://" occurs yields no links |
| LinkExtractor.ScanFromSuffix | index.js:88 | scanning from position `d + j` finds the matches of the suffix from `d`, scanned from `j` and moved by `d` |
| LinkExtractor.MatchAtSuffix | index.js:87 | whether a match starts at a position, and where it ends, depend only on the text from that position on |
| LinkExtractor.MatchAtComplete | index.js:87 | any link-shaped piece of text (a scheme, at least one more character, no whitespace) that ends at whitespace or at the end of the text is matched at its start, up to exactly its end: the converse of `MatchIsLink` |
| LinkExtractor.LeadingLink | index.js:87-88 | a link followed by whitespace or by nothing is extracted whole, and then the scan carries on after it |
| LinkExtractor.LeadingGap | index.js:87-88 | text that has no letter 'p' and ends in whitespace adds no links and does not change the ones that follow |
| LinkExtractor.TwoLinksBetweenWords | index.js:87-88 | for any two links `a` and `b`, "see " + a + " and " + b yields exactly [a, b], in that order |
| Transcript.RecordingsUrl | index.js:44 | the recordings address of a meeting: "https://api.zoom.us/v2/meetings/", the meeting id, then "/recordings" |
| Transcript.FirstTxtUrl | index.js:53-58 | the value the for/break loop leaves in `chatFileUrl`: the download address of the first recording whose extension is exactly "TXT", or `null` when there is none |
| Transcript.FirstTxtUrlIsFirst | index.js:53-58 | a chosen address belongs to a recording whose extension is exactly "TXT", and no such recording comes before it |
| Transcript.FirstTxtUrlAt | index.js:53-58 | the first "TXT" recording is chosen, whatever recordings follow it |
| Transcript.FirstTxtUrlNone | index.js:53-58 | no address is chosen exactly when no recording has extension "TXT" (both directions) |
| Transcript.ResolveTranscript | index.js:43-66 | the listing is requested first. The transcript is requested exactly when the listing is a 200 reply whose first "TXT" address is non-empty, and then at that address. The call throws exactly on a rejected listing or a rejected download. It returns `null` exactly when the listing is accepted and nothing is downloaded. A returned transcript is the download's body |
| Transcript.OnlyFirstTranscriptDownloaded | index.js:53-62 | when a listing has its first "TXT" recording at `k`, any second request fetches the address of recording `k` |
| Transcript.DownloadChatFile | index.js:43-66 | the loop, with its `break`, issues the same requests and ends the same way as `ResolveTranscript` |
| Notifier.Join | index.js:107 | `Array.prototype.join`: the items with the separator between neighbours; "" for no items and the item itself for one |
| Notifier.ComposeMessage | index.js:105-107 | the message text: the header line "Here are the links shared during the Zoom meeting:" and a line feed, then the links joined by "\n" |
| Notifier.SlackPost | index.js:69-82 | the request `sendMessageToSlack` issues: a post to "https://slack.com/api/chat.postMessage" for the channel "#testing" with the given text |
| Notifier.ExtractJoined | index.js:105-107 | links joined by "\n" are extracted again, one for one |
| Notifier.HeaderHasNoP | index.js:106 | the header line has no letter 'p', so no link can start inside it |
| Notifier.ComposeRoundTrip | index.js:105-107 | extracting links from the composed message gives back exactly the links it lists |
| Notifier.ComposeExtracted | index.js:103-107 | the link list of a message composed from a transcript's links is exactly the transcript's link list |
| Notifier.ExtractIdempotent | index.js:103-107 | joining the extracted links and extracting again changes nothing |
| Notifier.ComposeTwo | index.js:105-107 | the message for two links is the header, the first link, "\n", then the second link |
| Dispatcher.ChatContent | index.js:102 | the truthiness test `if (chatFileContent)`: the chat file goes on only when the fetch returned a string that is not empty; `null` and "" stop it |
| Dispatcher.MainFlow | index.js:92-125 | without a token the run makes no request and ends "missing credential", and only then; with a token the requests begin with those of the transcript fetch; a throw from the transcript fetch ends the run "aborted", with no post, and never "failed to retrieve"; the run ends "failed to retrieve the chat file" exactly when there is a token, the fetch did not throw, and no non-empty chat file came back; it ends "no links found" exactly when there is a token and a non-empty chat file with no link in it; on both of these paths the requests are exactly those of the transcript fetch and nothing more; `main` never reports "ignored" |
| Dispatcher.PostedExactlyWithLinks | index.js:100-121 | a Slack message is posted exactly when there is a token, a non-empty chat file, and at least one link in it (both directions) |
| Dispatcher.PostedMessage | index.js:104-112 | a posted message is the last request; it goes to "#testing"; its text is the header followed by the links joined by "\n"; its links are exactly those of the chat file |
| Dispatcher.RequestOrder | index.js:100-112 | at most three requests; the recording listing comes first; all but the last are fetches; a post can only be the third request, after both fetches |
| Dispatcher.OutcomeAfterPost | index.js:108-118 | once a post is made, the run is "delivered" exactly on an accepted reply with `ok`, and "refused", with Slack's `error`, exactly on an accepted reply without `ok`; it aborts exactly on a rejected reply |
| Dispatcher.NoSchemeNothingPosted | index.js:103-120 | a chat file in which neither scheme occurs ends with "no links found" and posts nothing |
| Dispatcher.DeliveredExample | index.js:50-115 | with a video, a transcript, then a second transcript listed, the first transcript is downloaded; its two links are posted as the header plus one link per line; the run is delivered |
| Dispatcher.HandleWebhook | index.js:128-143 | the webhook always answers 200 "OK"; the outcome is "ignored" exactly when the event is not "meeting.ended", and then nothing is requested; otherwise the run is that of `main` |
| Dispatcher.NoTokenNoRequests | index.js:94-98 | with no stored token, no webhook delivery makes any request, and an ended meeting reports the missing credential |
| Dispatcher.Server.constructor | index.js:18 | the token store starts empty |
| Dispatcher.Server.OAuthCallback | index.js:146-160 | the code is exchanged at the Zoom token URL with the configured redirect address. On an accepted reply, the token is stored and the answer is "OAuth flow completed. You can close this window.". Otherwise the old token stays and the answer is 500 "OAuth flow failed." |
| Dispatcher.Server.RunMain | index.js:92-125 | `main`, step by step on the stored token, behaves as `MainFlow` |
| Dispatcher.Server.Webhook | index.js:128-143 | the handler, on the stored token, behaves as `HandleWebhook` |

## Left out

- The network: no request is sent. Replies are inputs. Each reply input, and its `status`, is the final reply after any redirects the HTTP client follows, so a redirected download is seen with the status of the reply it ends at. A connection failure is a reply constructor of its own, and it makes the client throw, as a non-2xx status does.
- `qs.stringify` and the HTTP Basic credentials of the token exchange: the request records only the token URL, the code, and the redirect address. The grant type and the client id and secret are not recorded.
- Request headers: the Slack bot token and the content types are not modelled. A fetch records the Zoom access token it sends as its bearer credential.
- The `userId` / `host_id` value: `main` only logs it, so it is not modelled.
- Console logging: the closing log lines of `main` (index.js:96, 115, 117, 120, 123) and the webhook handler's error log (index.js:138) each become an `Outcome`. The other console calls, such as the "meetingId:" line at index.js:93, are not modelled.
- Express routing, `body-parser`, `dotenv`, port binding and the listen callback: these are plumbing with no decisions in them.
- cron.js is not part of this model: it is a keep-alive timer with no logic.
- Concurrency: webhook and OAuth requests are handled one at a time. Races on the token store between interleaved `await`s are not modelled.
- Malformed inputs: a webhook body without `payload.object.id`, a listing reply without `recording_files`, and a non-string `download_url` or `access_token` are not modelled. A missing `access_token` is modelled as "", which is falsy like `undefined`.
- The HTTP client's JSON parsing of the transcript body: the transcript is always a string.
- Text encoding: a Dafny `char` is a Unicode scalar value, whereas JavaScript strings are UTF-16 code units. No surrogate half is whitespace, so the extracted link texts are the same. Positions inside the text would differ.
- Errors thrown inside `main` other than rejected HTTP replies (for instance a `TypeError` on a malformed body) are not modelled. In the source the webhook handler catches them like any other throw.

/**
 * The Slack message that `main` of index.js composes from the extracted links,
 * and the request `sendMessageToSlack` makes with it.
 */
module Notifier {
  import opened Http
  import opened LinkExtractor

  const SlackChannel: string := "#testing"
  const SlackPostUrl: string := "https://slack.com/api/chat.postMessage"
  /** The first line of every message; written in pieces so that its letters can be checked piece by piece. */
  const Header: string := "Here are " + "the links " + "shared during " + "the Zoom meeting:\n"

  /** `Array.prototype.join`: the items with `sep` between neighbours, "" for no items. */
  function Join(items: seq<string>, sep: string): string {
    if items == [] then ""
    else if |items| == 1 then items[0]
    else items[0] + sep + Join(items[1..], sep)
  }

  /** The text of the message: the header line, then one link per line. */
  function ComposeMessage(links: seq<string>): string {
    Header + Join(links, "\n")
  }

  /** `sendMessageToSlack(slackChannel, text, ...)` as the request it issues. */
  function SlackPost(text: string): Request {
    PostMessage(SlackPostUrl, SlackChannel, text)
  }

  /** Links written one per line are extracted again, one for one. */
  lemma {:induction false} ExtractJoined(links: seq<string>)
    requires forall k :: 0 <= k < |links| ==> IsLink(links[k])
    ensures ExtractLinks(Join(links, "\n")) == links
  {
    if links == [] {
      assert ScanFrom("", 0) == [];
    } else if |links| == 1 {
      LeadingLink(links[0], []);
      assert links[0] + [] == links[0];
      assert ScanFrom([], 0) == [];
    } else {
      var rest := Join(links[1..], "\n");
      assert Join(links, "\n") == links[0] + ("\n" + rest);
      ExtractJoined(links[1..]);
      LeadingGap("\n", rest);
      LeadingLink(links[0], "\n" + rest);
      assert links == [links[0]] + links[1..];
    }
  }

  /** The header holds no link and cannot start one, so the message's links are the links it lists. */
  lemma ComposeRoundTrip(links: seq<string>)
    requires forall k :: 0 <= k < |links| ==> IsLink(links[k])
    ensures ExtractLinks(ComposeMessage(links)) == links
  {
    HeaderHasNoP();
    LeadingGap(Header, Join(links, "\n"));
    ExtractJoined(links);
  }

  /** The header has no letter 'p', so no "http" can start inside it. */
  lemma HeaderHasNoP()
    ensures 'p' !in Header
  {
  }

  /** Extracting links from a message composed of the links of a transcript gives those links back. */
  lemma ComposeExtracted(transcript: string)
    ensures ExtractLinks(ComposeMessage(ExtractLinks(transcript))) == ExtractLinks(transcript)
  {
    ComposeRoundTrip(ExtractLinks(transcript));
  }

  /** Joining and extracting again changes nothing: extraction is idempotent through the message format. */
  lemma ExtractIdempotent(transcript: string)
    ensures ExtractLinks(Join(ExtractLinks(transcript), "\n")) == ExtractLinks(transcript)
  {
    ExtractJoined(ExtractLinks(transcript));
  }

  /** The message for two links. */
  lemma ComposeTwo(a: string, b: string)
    ensures ComposeMessage([a, b]) == Header + a + "\n" + b
  {
    assert Join([a, b], "\n") == a + "\n" + b;
  }
}

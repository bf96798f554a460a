/** Formatting the summary for the notification channel. */
module Delivery {
  import opened Wrappers

  const SummaryHeader: string := "Issue Summary:\n"

  /** A message posted to a Slack channel. */
  datatype SlackMessage = SlackMessage(workspace: string, channel: string, text: string)

  /** "Issue Summary:\n<summary>\n<url>". */
  function DeliveryText(summary: string, url: string): string {
    SummaryHeader + summary + "\n" + url
  }

  /** Recovers the summary from a delivered text, given the issue's url. */
  function ParseDeliveryText(text: string, url: string): Option<string> {
    var h := |SummaryHeader|;
    if |text| >= h + 1 + |url| && text[..h] == SummaryHeader && text[|text| - |url| - 1..] == "\n" + url
    then Some(text[h..|text| - |url| - 1])
    else None
  }

  /** The delivered text carries the summary intact between the header and the
      link, so distinct summaries of one issue give distinct messages. */
  lemma DeliveryRoundTrip(summary: string, url: string)
    ensures ParseDeliveryText(DeliveryText(summary, url), url) == Some(summary)
  {
    var text := DeliveryText(summary, url);
    var h := |SummaryHeader|;
    assert text == SummaryHeader + summary + ("\n" + url);
    assert text[..h] == SummaryHeader;
    assert text[|text| - |url| - 1..] == "\n" + url;
    assert text[h..|text| - |url| - 1] == summary;
  }
}

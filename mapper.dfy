/** The mapping from a webhook payload to the chat message posted for it
    (main.go, lines 102-166): only "new library item" events are posted,
    movies and episodes get a three-block card, and any other item type is
    posted as the zero-value (empty) message. */
module Mapper {
  import opened Wrappers
  import opened Data

  const LIBRARY_NEW := "library.new"
  const MOVIE := "movie"
  const EPISODE := "episode"

  /** The zero value of the message record, with no summary text and no
      blocks, which is what gets posted for an item that is neither a movie
      nor an episode. */
  const EMPTY_MESSAGE := SlackRequestBody("", [])

  /** The block layout shared by movies and episodes: a markdown section
      holding the headline, a context block holding one markdown element
      with the caption, and a divider. */
  function Card(summary: string, headline: string, caption: string): SlackRequestBody {
    SlackRequestBody(summary, [
      SlackBlock("section", Some(SlackText(headline, "mrkdwn")), []),
      SlackBlock("context", None, [SlackElement("mrkdwn", caption)]),
      SlackBlock("divider", None, [])
    ])
  }

  /** `s` without `suffix`, when it ends with it. */
  function StripSuffix(s: string, suffix: string): Option<string> {
    if |suffix| <= |s| && s[|s| - |suffix|..] == suffix then Some(s[..|s| - |suffix|]) else None
  }

  /** `s` without a leading and a trailing `*`, when it has both. */
  function StripBold(s: string): Option<string> {
    if 2 <= |s| && s[0] == '*' && s[|s| - 1] == '*' then Some(s[1..|s| - 1]) else None
  }

  /** The message for a new movie. Its summary and its headline each give
      the title back. */
  function MovieMessage(title: string): (r: SlackRequestBody)
    ensures StripSuffix(r.text, " added to Movies") == Some(title)
    ensures |r.blocks| == 3 && r.blocks[0].text.Some?
    ensures StripBold(r.blocks[0].text.value.text) == Some(title)
  {
    var r := Card(title + " added to Movies", "*" + title + "*", "added to Movies");
    assert r.text[..|title|] == title;
    assert r.text[|title|..] == " added to Movies";
    r
  }

  /** The message for a new episode of a show: the show and season are
      joined by one space. */
  function EpisodeMessage(grandparent: string, parent: string, title: string): (r: SlackRequestBody)
    ensures StripSuffix(r.text, " added to TV shows") == Some(grandparent + " " + parent + ": " + title)
  {
    var subject := grandparent + " " + parent + ": " + title;
    var r := Card(subject + " added to TV shows",
                  "New episode of *" + grandparent + " " + parent + "*: _" + title + "_",
                  "added to TV shows");
    assert r.text[..|subject|] == subject;
    assert r.text[|subject|..] == " added to TV shows";
    r
  }

  /** The message posted for a payload, or `None` when nothing is posted. */
  function Notification(m: PlexMessage): (r: Option<SlackRequestBody>)
    ensures r.Some? <==> m.event == LIBRARY_NEW
    ensures r.Some? && m.metadata.itemType != MOVIE && m.metadata.itemType != EPISODE
            ==> r.value == EMPTY_MESSAGE
    ensures r.Some? && r.value != EMPTY_MESSAGE ==> |r.value.blocks| == 3
  {
    if m.event != LIBRARY_NEW then None
    else if m.metadata.itemType == MOVIE then Some(MovieMessage(m.metadata.title))
    else if m.metadata.itemType == EPISODE then
      Some(EpisodeMessage(m.metadata.grandparentTitle, m.metadata.parentTitle, m.metadata.title))
    else Some(EMPTY_MESSAGE)
  }

  /** The exact message for a new movie. */
  lemma MovieNotification(m: PlexMessage)
    requires m.event == LIBRARY_NEW && m.metadata.itemType == MOVIE
    ensures Notification(m) == Some(SlackRequestBody(
      m.metadata.title + " added to Movies", [
        SlackBlock("section", Some(SlackText("*" + m.metadata.title + "*", "mrkdwn")), []),
        SlackBlock("context", None, [SlackElement("mrkdwn", "added to Movies")]),
        SlackBlock("divider", None, [])
      ]))
  {
  }

  /** The exact message for a new episode. */
  lemma EpisodeNotification(m: PlexMessage)
    requires m.event == LIBRARY_NEW && m.metadata.itemType == EPISODE
    ensures var md := m.metadata;
      Notification(m) == Some(SlackRequestBody(
      md.grandparentTitle + " " + md.parentTitle + ": " + md.title + " added to TV shows", [
        SlackBlock("section", Some(SlackText(
          "New episode of *" + md.grandparentTitle + " " + md.parentTitle + "*: _" + md.title + "_",
          "mrkdwn")), []),
        SlackBlock("context", None, [SlackElement("mrkdwn", "added to TV shows")]),
        SlackBlock("divider", None, [])
      ]))
  {
  }

  /** The movie title can be read back from the posted message, so two
      different movies are never announced with the same message. */
  lemma MovieMessageInjective(t1: string, t2: string)
    requires MovieMessage(t1) == MovieMessage(t2)
    ensures t1 == t2
  {
  }

  /** Episodes are not told apart that way: moving a space-separated word
      between the show and the season title gives a different episode
      that posts the same message (for instance show "Doctor Who" with
      season "Series 1", and show "Doctor" with season "Who Series 1"). */
  lemma EpisodeMessageAmbiguous(a: string, b: string, c: string, title: string)
    ensures (a + " " + b, c) != (a, b + " " + c)
    ensures EpisodeMessage(a + " " + b, c, title) == EpisodeMessage(a, b + " " + c, title)
  {
    assert |a + " " + b| != |a|;
    assert (a + " " + b) + " " + c == a + " " + (b + " " + c);
    assert "New episode of *" + (a + " " + b) + " " + c
        == "New episode of *" + a + " " + (b + " " + c);
  }
}

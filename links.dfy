/** The permalink printed under each tweet in the Twitter feed. */
module Links {
  import opened Decimal

  const TwitterBase: string := "https://www.twitter.com/"
  const StatusPath: string := "/status/"

  /** `https://www.twitter.com/{user_name}/status/{message_id}`. */
  function TwitterPermalink(userName: string, messageId: int): (url: string)
    ensures |url| > |TwitterBase| + |userName| + |StatusPath|
    ensures url[..|TwitterBase|] == TwitterBase
  {
    TwitterBase + userName + StatusPath + IntToString(messageId)
  }

  /** The index of the first `c` in `s`, or `|s|` when there is none. */
  function FirstIndexOf(s: string, c: char): (k: nat)
    ensures k <= |s|
    ensures forall i :: 0 <= i < k ==> s[i] != c
    ensures k < |s| ==> s[k] == c
    decreases |s|
  {
    if s == [] then 0 else if s[0] == c then 0 else 1 + FirstIndexOf(s[1..], c)
  }

  /** Reads a tweet permalink back into the user name and the message id. */
  function ParseTwitterPermalink(url: string): Option<(string, int)> {
    if |url| < |TwitterBase| || url[..|TwitterBase|] != TwitterBase then None
    else
      var rest := url[|TwitterBase|..];
      var k := FirstIndexOf(rest, '/');
      var tail := rest[k..];
      if |tail| < |StatusPath| || tail[..|StatusPath|] != StatusPath then None
      else
        match ParseInt(tail[|StatusPath|..])
        case None => None
        case Some(id) => Some((rest[..k], id))
  }

  lemma FirstIndexOfAfter(u: string, w: string, c: char)
    requires c !in u
    ensures FirstIndexOf(u + [c] + w, c) == |u|
  {
    assert (u + [c] + w)[|u|] == c;
  }

  /** A link assembled from a user name without '/' and a numeral parses back to both. */
  lemma ParseAssembledPermalink(userName: string, id: string, messageId: int)
    requires '/' !in userName && ParseInt(id) == Some(messageId)
    ensures ParseTwitterPermalink(TwitterBase + userName + StatusPath + id) == Some((userName, messageId))
  {
    var url := TwitterBase + userName + StatusPath + id;
    var rest := userName + StatusPath + id;
    assert url[..|TwitterBase|] == TwitterBase && url[|TwitterBase|..] == rest;
    SplitAtFirstSlash(userName, id);
  }

  /** After the base, the first '/' ends the user name and the status path follows it. */
  lemma SplitAtFirstSlash(userName: string, id: string)
    requires '/' !in userName
    ensures var rest := userName + StatusPath + id;
      var k := FirstIndexOf(rest, '/');
      && k == |userName| && rest[..k] == userName
      && rest[k..][..|StatusPath|] == StatusPath && rest[k..][|StatusPath|..] == id
  {
    var rest := userName + StatusPath + id;
    assert rest == userName + ['/'] + ("status/" + id);
    FirstIndexOfAfter(userName, "status/" + id, '/');
    assert rest[|userName|..] == StatusPath + id;
  }

  /**
   * A user name without '/' and the message id are both recovered from the
   * link, so two tweets with different authors or ids never share a link.
   */
  lemma PermalinkRoundTrip(userName: string, messageId: int)
    requires '/' !in userName
    ensures ParseTwitterPermalink(TwitterPermalink(userName, messageId)) == Some((userName, messageId))
  {
    IntRoundTrip(messageId);
    ParseAssembledPermalink(userName, IntToString(messageId), messageId);
  }
}

/**
 * The invite-hash extraction shared by `join_chat_by_invite` and
 * `check_chat_invite` (src/mcp_telegram/tools.py): the last '/'-separated
 * segment of the link, and, when that segment holds a '+', the text between
 * its first and second '+'.
 */
module Invite {
  import opened Strings

  /** The last '/'-separated segment of a link: `link.split('/')[-1]`. */
  function LastSegment(link: string): (seg: string)
    ensures '/' !in seg
    ensures |seg| <= |link| && link[|link| - |seg|..] == seg
    ensures |seg| < |link| ==> link[|link| - |seg| - 1] == '/'
  {
    SplitLast(link, '/');
    var parts := Split(link, '/');
    parts[|parts| - 1]
  }

  /**
   * When the separator occurs, the second part of a split is the text after
   * the first separator, up to the next one; it is drawn from the string.
   */
  lemma SecondPart(s: string, sep: char)
    requires sep in s
    ensures var parts := Split(s, sep); var i := |parts[0]|;
      && |parts| >= 2 && i < |s| && s[i] == sep && sep !in s[..i]
      && Split(s[i + 1..], sep)[0] == parts[1]
      && forall c :: c in parts[1] ==> c in s
  {
    JoinSplit(s, sep);
    SplitFirst(s, sep);
    var parts := Split(s, sep);
    var i := |parts[0]|;
    var after := s[i + 1..];
    SplitFirst(after, sep);
    assert parts[1] == after[..|parts[1]|];
  }

  /**
   * The hash handed to `ImportChatInviteRequest` / `CheckChatInviteRequest`.
   * It never holds a '/' or a '+'. Without a '+' it is the whole last
   * segment; with one, it is the text that follows the first '+' of the
   * segment, up to the next '+' or the end.
   */
  function InviteHash(link: string): (hash: string)
    ensures '/' !in hash && '+' !in hash
    ensures var seg := LastSegment(link);
      && ('+' !in seg ==> hash == seg)
      && ('+' in seg ==>
            exists i :: 0 <= i < |seg| && seg[i] == '+' && '+' !in seg[..i]
              && Split(seg[i + 1..], '+')[0] == hash)
  {
    var seg := LastSegment(link);
    if '+' in seg then
      SecondPart(seg, '+');
      var parts := Split(seg, '+');
      var i := |parts[0]|;
      assert 0 <= i < |seg| && seg[i] == '+' && '+' !in seg[..i] && Split(seg[i + 1..], '+')[0] == parts[1];
      parts[1]
    else
      SplitNoSep(seg, '+');
      seg
  }

  /**
   * Links of both shapes Telegram hands out give back the hash they were
   * built from: `<prefix>/+<hash>` and `<prefix>/<hash>` (the `joinchat` form).
   */
  lemma {:induction false} InviteHashRoundTrip(prefix: string, hash: string)
    requires '/' !in hash && '+' !in hash
    ensures InviteHash(prefix + "/+" + hash) == hash
    ensures InviteHash(prefix + "/" + hash) == hash
  {
    SplitNoSep(hash, '/');
    SplitAppend(prefix, hash, '/');
    assert prefix + "/" + hash == prefix + ['/'] + hash;
    SplitNoSep(hash, '+');
    assert Split(prefix + "/" + hash, '/') == Split(prefix, '/') + [hash];

    var plus := "+" + hash;
    assert '/' !in plus;
    SplitNoSep(plus, '/');
    SplitAppend(prefix, plus, '/');
    assert prefix + "/+" + hash == prefix + ['/'] + plus;
    assert LastSegment(prefix + "/+" + hash) == plus;
    SplitAppend("", hash, '+');
    assert [] + ['+'] + hash == plus;
    assert Split(plus, '+') == [""] + [hash];
  }
}

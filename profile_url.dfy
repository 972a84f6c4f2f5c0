/** Flow selection: `start` sends a profile URL down the GitHub flow when the
    pattern `https?://github\.com/[^ /]+` matches anywhere in it. */
module ProfileUrl {

  const HTTP_PREFIX := "http://github.com/"
  const HTTPS_PREFIX := "https://github.com/"

  /** The character class `[^ /]`: anything but a space or a slash. */
  predicate UsernameChar(c: char)
  {
    c != ' ' && c != '/'
  }

  /** `prefix` occurs at index i and is followed by a username character.
      The `+` of the pattern succeeds as soon as one such character follows. */
  predicate PrefixedAt(s: string, i: nat, prefix: string)
  {
    i + |prefix| < |s| && s[i..i + |prefix|] == prefix && UsernameChar(s[i + |prefix|])
  }

  /** The pattern matches starting at index i (the `s?` tried both ways). */
  predicate MatchesAt(s: string, i: nat)
  {
    PrefixedAt(s, i, HTTP_PREFIX) || PrefixedAt(s, i, HTTPS_PREFIX)
  }

  /** Unanchored search for a match starting at or after `from`. */
  function SearchFrom(s: string, from: nat): (found: bool)
    requires from <= |s|
    ensures found <==> exists i :: from <= i < |s| && MatchesAt(s, i)
    decreases |s| - from
  {
    if from == |s| then false
    else MatchesAt(s, from) || SearchFrom(s, from + 1)
  }

  /** `preg_match` of the GitHub pattern against the normalized profile URL. */
  function IsGitHubProfile(me: string): (r: bool)
    ensures r <==> exists i :: 0 <= i < |me| && MatchesAt(me, i)
  {
    SearchFrom(me, 0)
  }

  /** The identity the GitHub flow signs in with is itself classified as a
      GitHub profile, as long as the login starts with a username character. */
  lemma GitHubIdentityIsProfile(login: string)
    requires login != [] && UsernameChar(login[0])
    ensures IsGitHubProfile(HTTPS_PREFIX + login)
  {
  }

  /** Profile URLs of the GitHub flow, with or without a trailing slash. */
  lemma GitHubUserUrlsSelected()
    ensures IsGitHubProfile("https://github.com/example")
    ensures IsGitHubProfile("https://github.com/example/")
  {
  }

  /** The `s?` makes plain http select the GitHub flow too. */
  lemma PlainHttpSelected()
    ensures IsGitHubProfile("http://github.com/example")
  {
  }

  /** The bare provider root has no username character after the slash. */
  lemma GitHubRootNotSelected()
    ensures !IsGitHubProfile("https://github.com/")
  {
  }

  /** A host that merely starts with `github.com` does not select the GitHub
      flow: no slash follows `github.com` directly. */
  lemma LookalikeHostNotSelected()
    ensures !IsGitHubProfile("https://github.com.evil.example/x")
  {
    LookalikeHasNoMatch("https://github.com.evil.example/x");
  }

  lemma LookalikeHasNoMatch(s: string)
    requires s == "https://github.com.evil.example/x"
    ensures forall i :: 0 <= i < |s| ==> !MatchesAt(s, i)
  {
    forall i | 0 <= i < |s|
      ensures !MatchesAt(s, i)
    {
      // "ht" occurs only at index 0, where the prefixes part ways with s
      if PrefixedAt(s, i, HTTP_PREFIX) {
        PrefixedAtChar(s, i, HTTP_PREFIX, 0);
        PrefixedAtChar(s, i, HTTP_PREFIX, 1);
        PrefixedAtChar(s, i, HTTP_PREFIX, 4);
        PrefixedAtChar(s, i, HTTP_PREFIX, 17);
        assert false;
      }
      if PrefixedAt(s, i, HTTPS_PREFIX) {
        PrefixedAtChar(s, i, HTTPS_PREFIX, 0);
        PrefixedAtChar(s, i, HTTPS_PREFIX, 1);
        PrefixedAtChar(s, i, HTTPS_PREFIX, 18);
        assert false;
      }
    }
  }

  lemma PrefixedAtChar(s: string, i: nat, prefix: string, k: nat)
    requires PrefixedAt(s, i, prefix) && k < |prefix|
    ensures s[i + k] == prefix[k]
  {
  }

  /** The pattern is searched for anywhere in the URL, not matched against the
      host: a GitHub URL inside the query string of another host selects the
      GitHub flow. */
  lemma MatchAnywhereInUrl()
    ensures IsGitHubProfile("https://evil.example/?u=https://github.com/x")
  {
    var s := "https://evil.example/?u=https://github.com/x";
    assert s[24..24 + |HTTPS_PREFIX|] == HTTPS_PREFIX;
    assert MatchesAt(s, 24);
  }
}

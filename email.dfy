/**
 * `validateEmail`: the pattern `^[^\s@]+@[^\s@]+\.[^\s@]+$` of the newer
 * script. `\s` is the JavaScript whitespace class: the Unicode space
 * separators, tab, vertical tab, form feed, the byte order mark and the line
 * terminators.
 */
module EmailCheck {
  import opened Wrappers

  predicate IsSpace(c: char)
  {
    c == '\t' || c == '\n' || c == '\U{000B}' || c == '\U{000C}' || c == '\r' || c == ' '
    || c == '\U{00A0}' || c == '\U{1680}' || ('\U{2000}' <= c <= '\U{200A}')
    || c == '\U{2028}' || c == '\U{2029}' || c == '\U{202F}' || c == '\U{205F}' || c == '\U{3000}'
    || c == '\U{FEFF}'
  }

  /** A character of the class `[^\s@]`. */
  predicate Plain(c: char)
  {
    !IsSpace(c) && c != '@'
  }

  /** A string the repetition `[^\s@]+` matches completely. */
  predicate Run(s: string)
  {
    |s| > 0 && forall i :: 0 <= i < |s| ==> Plain(s[i])
  }

  predicate AllPlain(s: string)
  {
    forall i :: 0 <= i < |s| ==> Plain(s[i])
  }

  /** The language of the anchored pattern: three runs joined by "@" and ".". */
  ghost predicate MatchesPattern(email: string)
  {
    exists user, host, tld :: Run(user) && Run(host) && Run(tld) && email == user + "@" + host + "." + tld
  }

  /** The first position of `c` in `s`. */
  function IndexOf(s: string, c: char): (r: Option<nat>)
    ensures r.Some? ==> r.value < |s| && s[r.value] == c && c !in s[..r.value]
    ensures r.None? ==> c !in s
  {
    if s == [] then None
    else if s[0] == c then Some(0)
    else match IndexOf(s[1..], c)
      case None => None
      case Some(k) => assert s[..k + 1] == [s[0]] + s[1..][..k]; Some(k + 1)
  }

  /** Some "." of `domain` has a character on each side. */
  predicate InnerDot(domain: string)
  {
    exists k :: 0 < k < |domain| - 1 && domain[k] == '.'
  }

  /** `re.test(email)`: one "@" after a run, and a domain of plain characters with an inner dot. */
  function ValidateEmail(email: string): (ok: bool)
    ensures ok <==> MatchesPattern(email)
  {
    var at := IndexOf(email, '@');
    var ok := at.Some? && 0 < at.value && AllPlain(email[..at.value])
      && AllPlain(email[at.value + 1..]) && InnerDot(email[at.value + 1..]);
    PatternIffCheck(email);
    ok
  }

  /** The two directions of the match, by the position of the "@" and of the chosen ".". */
  lemma PatternIffCheck(email: string)
    ensures MatchesPattern(email) <==>
      var at := IndexOf(email, '@');
      at.Some? && 0 < at.value && AllPlain(email[..at.value])
      && AllPlain(email[at.value + 1..]) && InnerDot(email[at.value + 1..])
  {
    if MatchesPattern(email) {
      var user, host, tld :| Run(user) && Run(host) && Run(tld) && email == user + "@" + host + "." + tld;
      MatchFound(email, user, host, tld);
    }
    var at := IndexOf(email, '@');
    if at.Some? && 0 < at.value && AllPlain(email[..at.value])
      && AllPlain(email[at.value + 1..]) && InnerDot(email[at.value + 1..])
    {
      var domain := email[at.value + 1..];
      var k :| 0 < k < |domain| - 1 && domain[k] == '.';
      MatchBuilt(email, at.value, k);
    }
  }

  /** Cutting at the "@" and at an inner "." of the domain gives the three runs. */
  lemma MatchBuilt(email: string, at: nat, k: nat)
    requires at < |email| && email[at] == '@' && 0 < at && AllPlain(email[..at])
    requires AllPlain(email[at + 1..]) && 0 < k < |email[at + 1..]| - 1 && email[at + 1..][k] == '.'
    ensures MatchesPattern(email)
  {
    var domain := email[at + 1..];
    var user, host, tld := email[..at], domain[..k], domain[k + 1..];
    assert domain == host + "." + tld;
    assert email == user + "@" + domain;
    assert Run(host) by {
      forall i | 0 <= i < |host| ensures Plain(host[i]) { assert host[i] == domain[i]; }
    }
    assert Run(tld) by {
      forall i | 0 <= i < |tld| ensures Plain(tld[i]) { assert tld[i] == domain[k + 1 + i]; }
    }
    assert email == user + "@" + host + "." + tld;
  }

  /** A matching string has its only "@" right after the user run. */
  lemma MatchFound(email: string, user: string, host: string, tld: string)
    requires Run(user) && Run(host) && Run(tld) && email == user + "@" + host + "." + tld
    ensures var at := IndexOf(email, '@');
      at == Some(|user|) && AllPlain(email[..|user|])
      && AllPlain(email[|user| + 1..]) && InnerDot(email[|user| + 1..])
  {
    var domain := host + "." + tld;
    assert email == user + "@" + domain;
    assert email[..|user|] == user;
    assert email[|user| + 1..] == domain;
    assert '@' !in user by {
      forall i | 0 <= i < |user| ensures user[i] != '@' { assert Plain(user[i]); }
    }
    assert AllPlain(domain) by {
      forall i | 0 <= i < |domain| ensures Plain(domain[i])
      {
        if i < |host| { assert domain[i] == host[i]; }
        else if i > |host| { assert domain[i] == tld[i - |host| - 1]; }
      }
    }
    assert domain[|host|] == '.';
    assert email[|user|] == '@';
  }

  /** There must be a "." after the "@". */
  lemma RejectsMissingDot()
    ensures !ValidateEmail("a@b")
  {
    assert IndexOf("a@b", '@') == Some(1);
    assert "a@b"[2..] == "b";
  }

  /** A second "@" is not a plain character. */
  lemma RejectsDoubleAt()
    ensures !ValidateEmail("a@@b.c")
  {
    assert IndexOf("a@@b.c", '@') == Some(1);
    assert "a@@b.c"[2..][0] == '@';
  }

  /** The smallest accepted shape. */
  lemma AcceptsShortest()
    ensures ValidateEmail("a@b.c")
  {
    MatchFound("a@b.c", "a", "b", "c");
  }

  /** An address with a space anywhere is rejected. */
  lemma RejectsSpace(email: string, i: nat)
    requires i < |email| && IsSpace(email[i])
    ensures !ValidateEmail(email)
  {
    if MatchesPattern(email) {
      var user, host, tld :| Run(user) && Run(host) && Run(tld) && email == user + "@" + host + "." + tld;
      MatchFound(email, user, host, tld);
    }
  }
}

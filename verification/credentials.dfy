/** Validation of the text a user sends while the login conversation waits for
    credentials (`receive_credentials` in bot.py). */
module Credentials {
  import opened PyText

  /** The five labels of the persistent reply keyboard. */
  const LoginText: string := "\U{1F511} Login"
  const BuyText: string := "\U{1F6D2} Buy Number"
  const ShowMessagesText: string := "\U{2709}\U{FE0F} Show Messages"
  const RemoveNumberText: string := "\U{1F5D1}\U{FE0F} Remove Number"
  const LogoutText: string := "\U{21AA}\U{FE0F} Logout"
  const MenuLabels: seq<string> := [LoginText, BuyText, ShowMessagesText, RemoveNumberText, LogoutText]

  /** Every account SID the provider issues starts with "AC" and is 34 characters long. */
  const SidPrefix: string := "AC"
  const SidLength: nat := 34

  predicate IsAccountSid(sid: string)
    ensures IsAccountSid(sid) <==> |sid| == 34 && sid[0] == 'A' && sid[1] == 'C'
  {
    StartsWith(sid, SidPrefix) && |sid| == SidLength
  }

  /** What `receive_credentials` makes of the message text before any provider call. */
  datatype CredentialCheck =
    | MenuButton                        // a menu button: refused without parsing
    | NotTwoParts                       // unpacking `split(maxsplit=1)` into two names fails
    | MalformedSid(sid: string)         // the first word is not shaped like an account SID
    | WellFormed(sid: string, auth: string)

  function CheckCredentials(text: string): (r: CredentialCheck)
    ensures r.MenuButton? <==> Strip(text) in MenuLabels
    ensures r.MalformedSid? ==> r.sid != [] && NoSpace(r.sid) && !IsAccountSid(r.sid)
    ensures r.WellFormed? ==>
      && IsAccountSid(r.sid) && NoSpace(r.sid)
      && r.auth != [] && !IsSpace(r.auth[0]) && !IsSpace(r.auth[|r.auth| - 1])
  {
    var input := Strip(text);
    if input in MenuLabels then MenuButton
    else
      var parts := SplitOnce(input);
      if |parts| != 2 then NotTwoParts
      else if !IsAccountSid(parts[0]) then MalformedSid(parts[0])
      else
        assert parts[1][|parts[1]| - 1] == input[|input| - 1];
        WellFormed(parts[0], parts[1])
  }

  /** No menu label is longer than 16 characters. */
  lemma NotAMenuLabel(s: string)
    requires |s| > 16
    ensures s !in MenuLabels
  {
    assert |LoginText| == 7 && |BuyText| == 12 && |ShowMessagesText| == 16;
    assert |RemoveNumberText| == 16 && |LogoutText| == 9;
  }

  /** A menu label, even padded with whitespace, is refused as a button press. */
  lemma MenuLabelRefused(lead: string, button: string, trail: string)
    requires button in MenuLabels
    requires AllSpace(lead) && AllSpace(trail)
    ensures CheckCredentials(lead + button + trail) == MenuButton
  {
    assert button != [] && !IsSpace(button[0]) && !IsSpace(button[|button| - 1]);
    StripSurrounded(lead, button, trail);
  }

  /** An account SID, a whitespace run and a secret are accepted as exactly that SID
      and that secret, the secret keeping any whitespace inside it. */
  lemma CredentialsAccepted(lead: string, sid: string, gap: string, auth: string, trail: string)
    requires AllSpace(lead) && AllSpace(gap) && AllSpace(trail) && gap != []
    requires IsAccountSid(sid) && NoSpace(sid)
    requires auth != [] && !IsSpace(auth[0]) && !IsSpace(auth[|auth| - 1])
    ensures CheckCredentials(lead + sid + gap + auth + trail) == WellFormed(sid, auth)
  {
    var text := lead + sid + gap + auth + trail;
    var core := sid + gap + auth;
    assert text == lead + core + trail;
    assert core[0] == sid[0] && core[|core| - 1] == auth[|auth| - 1];
    StripSurrounded(lead, core, trail);
    assert Strip(text) == core;
    NotAMenuLabel(core);
    SplitOnceJoin(sid, gap, auth);
    assert SplitOnce(core) == [sid, auth];
  }

  /** A first word that is not shaped like an account SID, followed by more text, is
      refused as a malformed SID, unless the whole stripped text is a menu label (the
      labels themselves are two words). */
  lemma MalformedSidRefused(lead: string, word: string, gap: string, rest: string, trail: string)
    requires AllSpace(lead) && AllSpace(gap) && AllSpace(trail) && gap != []
    requires word != [] && NoSpace(word) && !IsAccountSid(word)
    requires rest != [] && !IsSpace(rest[0]) && !IsSpace(rest[|rest| - 1])
    requires word + gap + rest !in MenuLabels
    ensures CheckCredentials(lead + word + gap + rest + trail) == MalformedSid(word)
  {
    var text := lead + word + gap + rest + trail;
    var core := word + gap + rest;
    assert text == lead + core + trail;
    assert core[0] == word[0] && core[|core| - 1] == rest[|rest| - 1];
    StripSurrounded(lead, core, trail);
    SplitOnceJoin(word, gap, rest);
    assert SplitOnce(Strip(text)) == [word, rest];
  }

  /** A single word that is not a menu label, padded with whitespace, cannot be unpacked
      into a SID and a secret. */
  lemma SingleWordRefused(lead: string, word: string, trail: string)
    requires AllSpace(lead) && AllSpace(trail)
    requires word != [] && NoSpace(word) && word !in MenuLabels
    ensures CheckCredentials(lead + word + trail) == NotTwoParts
  {
    StripSurrounded(lead, word, trail);
    SplitOnceWord(word);
  }

  /** A SID sent without a secret is a format error, not a login attempt. */
  lemma MissingSecretRefused(lead: string, sid: string, trail: string)
    requires AllSpace(lead) && AllSpace(trail)
    requires IsAccountSid(sid) && NoSpace(sid)
    ensures CheckCredentials(lead + sid + trail) == NotTwoParts
  {
    NotAMenuLabel(sid);
    SingleWordRefused(lead, sid, trail);
  }

  /** A message of whitespace only cannot be unpacked into a SID and a secret. */
  lemma BlankRefused(text: string)
    requires AllSpace(text)
    ensures CheckCredentials(text) == NotTwoParts
  {
    assert Strip(text) == [];
    assert |LoginText| == 7 && |BuyText| == 12 && |ShowMessagesText| == 16;
    assert |RemoveNumberText| == 16 && |LogoutText| == 9;
  }

  /** A text that strips to two parts is whitespace, the first part, a non-empty
      whitespace run, the second part and whitespace. */
  lemma TwoPartsAsTyped(text: string)
    requires |SplitOnce(Strip(text))| == 2
    ensures exists lead, gap, trail ::
      && AllSpace(lead) && AllSpace(gap) && gap != [] && AllSpace(trail)
      && text == lead + SplitOnce(Strip(text))[0] + gap + SplitOnce(Strip(text))[1] + trail
  {
    var input := Strip(text);
    var parts := SplitOnce(input);
    StripUndone(text);
    var outer, trail :| AllSpace(outer) && AllSpace(trail) && text == outer + input + trail;
    SplitOnceTwo(input);
    var inner, gap :| AllSpace(inner) && AllSpace(gap) && gap != [] && input == inner + parts[0] + gap + parts[1];
    AllSpaceJoin(outer, inner);
    RegroupPair(outer, inner, parts[0], gap, parts[1], trail);
  }

  /** A text that strips to one part is that word with whitespace around it. */
  lemma OnePartAsTyped(text: string)
    requires |SplitOnce(Strip(text))| == 1
    ensures exists lead, trail ::
      AllSpace(lead) && AllSpace(trail) && text == lead + SplitOnce(Strip(text))[0] + trail
  {
    var input := Strip(text);
    var parts := SplitOnce(input);
    StripUndone(text);
    var outer, trail :| AllSpace(outer) && AllSpace(trail) && text == outer + input + trail;
    SplitOnceOne(input);
    var inner, after :| AllSpace(inner) && AllSpace(after) && input == inner + parts[0] + after;
    AllSpaceJoin(outer, inner);
    AllSpaceJoin(after, trail);
    RegroupWord(outer, inner, parts[0], after, trail);
  }

  lemma RegroupWord(a: string, b: string, c: string, d: string, e: string)
    ensures a + (b + c + d) + e == (a + b) + c + (d + e)
  {
  }

  lemma RegroupPair(a: string, b: string, c: string, d: string, e: string, f: string)
    ensures a + (b + c + d + e) + f == (a + b) + c + d + e + f
  {
  }

  lemma AllSpaceJoin(a: string, b: string)
    requires AllSpace(a) && AllSpace(b)
    ensures AllSpace(a + b)
  {
    forall i | 0 <= i < |a + b|
      ensures IsSpace((a + b)[i])
    {
      if i >= |a| {
        assert (a + b)[i] == b[i - |a|];
      }
    }
  }

  /** Accepted credentials are exactly what the user typed: whitespace, the SID, a
      non-empty whitespace run, the secret and whitespace. */
  lemma AcceptedOnlyAsTyped(text: string, sid: string, auth: string)
    requires CheckCredentials(text) == WellFormed(sid, auth)
    ensures exists lead, gap, trail ::
      && AllSpace(lead) && AllSpace(gap) && gap != [] && AllSpace(trail)
      && text == lead + sid + gap + auth + trail
  {
    assert SplitOnce(Strip(text)) == [sid, auth];
    TwoPartsAsTyped(text);
  }

  /** A malformed SID is the first of two words the user typed. */
  lemma MalformedOnlyAsTyped(text: string, word: string)
    requires CheckCredentials(text) == MalformedSid(word)
    ensures exists lead, gap, rest, trail ::
      && AllSpace(lead) && AllSpace(gap) && gap != [] && rest != [] && AllSpace(trail)
      && text == lead + word + gap + rest + trail
  {
    var parts := SplitOnce(Strip(text));
    assert |parts| == 2 && parts[0] == word;
    TwoPartsAsTyped(text);
  }

  /** An unreadable text is whitespace only, or a single word with whitespace around it. */
  lemma UnreadableOnlyAsTyped(text: string)
    requires CheckCredentials(text) == NotTwoParts
    ensures AllSpace(text) || exists lead, word, trail ::
      && AllSpace(lead) && AllSpace(trail) && word != [] && NoSpace(word)
      && text == lead + word + trail
  {
    var parts := SplitOnce(Strip(text));
    assert |parts| < 2;
    if parts == [] {
      assert Strip(text) == [];
    } else {
      OnePartAsTyped(text);
    }
  }
}

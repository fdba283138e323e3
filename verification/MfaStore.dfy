/** The second-factor tables, operation by operation (src/wecom_ai_gateway/mfa.py). Each call
    is one transaction; an exception leaves the tables as they were. */
module MfaStore {
  import opened Basics
  import opened Text
  import opened Mfa
  import opened MfaLife

  class Store {
    var credentials: map<Subject, Credential>
    var challenges: map<string, Challenge>
    ghost var history: map<Subject, seq<Factor>>
    ghost var tries: map<string, seq<bool>>

    constructor ()
      ensures View() == EMPTY
    {
      credentials, challenges, history, tries := map[], map[], map[], map[];
    }

    ghost function View(): State
      reads this
    {
      State(credentials, challenges, history, tries)
    }

    method SavePendingSecret(subject: Subject, secret: string) returns (raised: bool)
      modifies this
      ensures View() == Pending(old(View()), subject, secret)
      ensures raised <==> Enabled(old(View()), subject)
      ensures challenges == old(challenges)
      ensures credentials ==
        if raised then old(credentials) else old(credentials)[subject := Credential(secret, false, [], None)]
    {
      if subject in credentials && credentials[subject].enabled {
        return true;
      }
      credentials := credentials[subject := Credential(secret, false, [], None)];
      history := history - {subject};
      return false;
    }

    method DropChallenges(subject: Subject)
      modifies this`challenges
      ensures challenges == Dropped(old(challenges), subject)
      ensures forall t :: t in challenges <==> t in old(challenges) && old(challenges)[t].subject != subject
      ensures forall t :: t in challenges ==> challenges[t] == old(challenges)[t]
    {
      challenges := map t | t in challenges && challenges[t].subject != subject :: challenges[t];
    }

    method HashCodes(w: World, codes: seq<string>) returns (hashes: seq<Digest>)
      ensures hashes == Hashes(w, codes)
    {
      hashes := [];
      for i := 0 to |codes|
        invariant |hashes| == i && forall j :: 0 <= j < i ==> hashes[j] == CodeHash(w, codes[j])
      {
        hashes := hashes + [CodeHash(w, codes[i])];
      }
    }

    lemma DigestsDiffer(w: World, codes: seq<string>, draws: seq<string>)
      requires forall i :: 0 <= i < |draws| ==> |draws[i]| == 12 && Raw(draws[i])
      requires forall i :: 0 <= i < |codes| ==> exists j :: 0 <= j < |draws| && codes[i] == Formatted(draws[j])
      requires forall i, j :: 0 <= i < j < |codes| ==> codes[i] != codes[j]
      ensures Sane(w) ==> Distinct(Hashes(w, codes))
    {
      if Sane(w) {
        var raws: seq<string> := [];
        for i := 0 to |codes|
          invariant |raws| == i
          invariant forall k :: 0 <= k < i ==> |raws[k]| == 12 && Raw(raws[k]) && codes[k] == Formatted(raws[k])
        {
          var j :| 0 <= j < |draws| && codes[i] == Formatted(draws[j]);
          raws := raws + [draws[j]];
        }
        GeneratedDigestsDiffer(w, codes, raws);
      }
    }

    /** None when there is nothing to enable or the code is wrong. */
    method EnableCredential(w: World, subject: Subject, code: string, draws: seq<string>, now: int)
      returns (codes: Option<seq<string>>)
      requires forall i :: 0 <= i < |draws| ==> |draws[i]| == 12 && Raw(draws[i])
      requires |CodesOf(draws)| >= CODE_COUNT
      modifies this
      ensures codes.Some? ==>
        && View() == Enabling(w, old(View()), subject, code, codes.value, now)
        && Enabled(View(), subject) && !Enabled(old(View()), subject)
        && |codes.value| == CODE_COUNT && (Sane(w) ==> Distinct(Hashes(w, codes.value)))
      ensures codes == None ==> View() == old(View())
      ensures codes.Some? <==>
        && subject in old(credentials) && !old(credentials)[subject].enabled
        && TotpFits(w, old(credentials)[subject].secret, Strip(code, WHITESPACE), None, now)
    {
      if subject !in credentials || credentials[subject].enabled {
        return None;
      }
      var secret := credentials[subject].secret;
      var f := VerifyTotp(w, secret, Strip(code, WHITESPACE), None, now);
      VerifyExactly(w, secret, Strip(code, WHITESPACE), None, now);
      if !f.Totp? {
        return None;
      }
      var generated := GenerateRecoveryCodes(draws);
      var hashes := HashCodes(w, generated);
      credentials := credentials[subject := Credential(secret, true, hashes, Some(f.counter))];
      DropChallenges(subject);
      history := history[subject := [f]];
      DigestsDiffer(w, generated, draws);
      return Some(generated);
    }

    /** DELETE ... WHERE expires_at <= now */
    method DropExpired(now: int)
      modifies this`challenges
      ensures forall t :: t in challenges <==> t in old(challenges) && old(challenges)[t].expires > now
      ensures forall t :: t in challenges ==> challenges[t] == old(challenges)[t]
    {
      challenges := map t | t in challenges && challenges[t].expires > now :: challenges[t];
    }

    /** token is the random token drawn for the challenge. */
    method CreateChallenge(subject: Subject, token: string, now: int)
      modifies this
      ensures View() == Challenged(old(View()), subject, token, now)
      ensures credentials == old(credentials)
      ensures token in challenges && challenges[token] == Challenge(subject, 0, now + 300)
      ensures forall t :: t in challenges && t != token <==>
        t != token && t in old(challenges) && old(challenges)[t].expires > now && old(challenges)[t].subject != subject
      ensures forall t :: t in challenges && t != token ==> challenges[t] == old(challenges)[t]
    {
      DropExpired(now);
      DropChallenges(subject);
      challenges := challenges[token := Challenge(subject, 0, now + CHALLENGE_TTL)];
      tries := tries[token := []];
    }

    /** _challenge: the live challenge of a token; a stale or worn-out one is deleted. */
    method FindChallenge(token: string, now: int) returns (found: Option<Challenge>)
      modifies this`challenges
      ensures found.Some? <==> Findable(old(View()), token) && !Stale(old(challenges)[token], now)
      ensures found.Some? ==> found.value == old(challenges)[token] && challenges == old(challenges)
      ensures found == None ==>
        challenges == if Findable(old(View()), token) then old(challenges) - {token} else old(challenges)
    {
      if token == "" || |token| > 200 || token !in challenges {
        return None;
      }
      var row := challenges[token];
      if row.expires <= now || row.attempts >= MAX_ATTEMPTS {
        challenges := challenges - {token};
        return None;
      }
      return Some(row);
    }

    /** Try a code as a TOTP code, then as a recovery code, and use it up when it fits. */
    method UseFactor(w: World, subject: Subject, code: string, now: int) returns (f: Factor)
      requires subject in credentials
      modifies this`credentials, this`history
      ensures f == Present(w, old(credentials)[subject], code, now)
      ensures View() == if Accepted(f) then Accepting(old(View()), subject, f) else old(View())
    {
      var c := credentials[subject];
      f := VerifyTotp(w, c.secret, Strip(code, WHITESPACE), c.last, now);
      if f.Totp? {
        c := c.(last := Some(f.counter));
      } else if f.Rejected? {
        var digest := CodeHash(w, code);
        if digest in c.hashes {
          c := c.(hashes := Removed(c.hashes, digest));
          f := Recovery(digest);
        }
      }
      if Accepted(f) {
        history := history[subject := HistoryOf(View(), subject) + [f]];
        credentials := credentials[subject := c];
      }
    }

    method ConsumeChallenge(w: World, token: string, code: string, now: int) returns (who: Option<Subject>)
      modifies this
      ensures (View(), who) == Consuming(w, old(View()), token, code, now)
    {
      var found := FindChallenge(token, now);
      if found == None {
        return None;
      }
      var row := found.value;
      if row.subject !in credentials || !credentials[row.subject].enabled {
        challenges := challenges - {token};
        return None;
      }
      var f := Rejected;
      if 6 <= |Strip(code, WHITESPACE)| <= 32 {
        f := UseFactor(w, row.subject, code, now);
      }
      if f.Raises? {
        return None;
      }
      if f.Rejected? {
        tries := tries[token := TriesOf(View(), token) + [false]];
        if row.attempts + 1 >= MAX_ATTEMPTS {
          challenges := challenges - {token};
        } else {
          challenges := challenges[token := row.(attempts := row.attempts + 1)];
        }
        return None;
      }
      tries := tries[token := TriesOf(View(), token) + [true]];
      challenges := challenges - {token};
      return Some(row.subject);
    }

    /** None when comparing the code raised. */
    method VerifySecondFactor(w: World, subject: Subject, code: string, now: int) returns (ok: Option<bool>)
      modifies this
      ensures (View(), ok) == Verifying(w, old(View()), subject, code, now)
    {
      if subject !in credentials || !credentials[subject].enabled {
        return Some(false);
      }
      var f := UseFactor(w, subject, code, now);
      return if f.Raises? then None else Some(Accepted(f));
    }

    method RemoveCredential(subject: Subject)
      modifies this
      ensures View() == Removing(old(View()), subject)
      ensures credentials == old(credentials) - {subject}
      ensures forall t :: t in challenges <==> t in old(challenges) && old(challenges)[t].subject != subject
      ensures forall t :: t in challenges ==> challenges[t] == old(challenges)[t]
    {
      DropChallenges(subject);
      credentials := credentials - {subject};
      history := history - {subject};
    }
  }
}

/** What holds over every history of second-factor operations. */
module MfaLife {
  import opened Basics
  import opened Text
  import opened Mfa

  function Apply(w: World, s: State, e: Event): State {
    match e
    case SavePending(subject, secret) => Pending(s, subject, secret)
    case Enable(subject, code, codes, now) => Enabling(w, s, subject, code, codes, now)
    case Create(subject, token, now) => Challenged(s, subject, token, now)
    case Consume(token, code, now) => Consuming(w, s, token, code, now).0
    case VerifySecond(subject, code, now) => Verifying(w, s, subject, code, now).0
    case Remove(subject) => Removing(s, subject)
  }

  /** Fresh challenge tokens, and ten recovery codes with different digests. */
  predicate Proper(w: World, s: State, e: Event) {
    && (e.Create? ==> e.token !in s.tries)
    && (e.Enable? ==> |e.codes| == CODE_COUNT && Distinct(Hashes(w, e.codes)))
  }

  predicate Legal(w: World, s: State, es: seq<Event>)
    decreases |es|
  {
    es == [] || (Proper(w, s, es[0]) && Legal(w, Apply(w, s, es[0]), es[1..]))
  }

  function Run(w: World, s: State, es: seq<Event>): State
    decreases |es|
  {
    if es == [] then s else Run(w, Apply(w, s, es[0]), es[1..])
  }

  // ------------------------------------------------------------ credential invariants

  function Counters(h: seq<Factor>): seq<int> {
    if h == [] then []
    else Counters(h[..|h| - 1]) + if h[|h| - 1].Totp? then [h[|h| - 1].counter] else []
  }

  function Recoveries(h: seq<Factor>): seq<Digest> {
    if h == [] then []
    else Recoveries(h[..|h| - 1]) + if h[|h| - 1].Recovery? then [h[|h| - 1].digest] else []
  }

  predicate Increasing(s: seq<int>) {
    forall i, j :: 0 <= i < j < |s| ==> s[i] < s[j]
  }

  predicate CredentialOk(c: Credential, h: seq<Factor>) {
    if c.enabled then
      && Counters(h) != [] && Increasing(Counters(h)) && c.last == Some(Counters(h)[|Counters(h)| - 1])
      && Distinct(c.hashes + Recoveries(h)) && |c.hashes + Recoveries(h)| == CODE_COUNT
      && forall i :: 0 <= i < |h| ==> Accepted(h[i])
    else
      c.hashes == [] && c.last == None
  }

  lemma DistinctParts(a: seq<Digest>, b: seq<Digest>)
    ensures Distinct(a + b) <==> Distinct(a) && Distinct(b) && forall x :: x in a ==> x !in b
  {
    var ab := a + b;
    if Distinct(ab) {
      forall i, j | 0 <= i < j < |a| ensures a[i] != a[j] {
        assert ab[i] == a[i] && ab[j] == a[j];
      }
      forall i, j | 0 <= i < j < |b| ensures b[i] != b[j] {
        assert ab[|a| + i] == b[i] && ab[|a| + j] == b[j];
      }
      forall x | x in a ensures x !in b {
        var i :| 0 <= i < |a| && a[i] == x;
        assert ab[i] == x && forall j :: 0 <= j < |b| ==> ab[|a| + j] == b[j];
      }
    } else if Distinct(a) && Distinct(b) {
      var i, j :| 0 <= i < j < |ab| && ab[i] == ab[j];
      assert i < |a| <= j;
      assert a[i] in a && b[j - |a|] in b;
    }
  }

  lemma {:induction false} RemovedLacks(l: seq<Digest>, x: Digest)
    requires x in l && Distinct(l)
    ensures |Removed(l, x)| == |l| - 1 && Distinct(Removed(l, x))
    ensures forall y :: y in Removed(l, x) <==> y in l && y != x
  {
    assert l == [l[0]] + l[1..];
    DistinctParts([l[0]], l[1..]);
    if l[0] != x {
      RemovedLacks(l[1..], x);
      DistinctParts([l[0]], Removed(l[1..], x));
    }
  }

  lemma SnocHistory(h: seq<Factor>, f: Factor)
    ensures Counters(h + [f]) == Counters(h) + if f.Totp? then [f.counter] else []
    ensures Recoveries(h + [f]) == Recoveries(h) + if f.Recovery? then [f.digest] else []
  {
    assert (h + [f])[..|h|] == h;
  }

  lemma SpendTotp(c: Credential, h: seq<Factor>, counter: int)
    requires CredentialOk(c, h) && c.enabled && After(c.last, counter)
    ensures CredentialOk(Spent(c, Totp(counter)), h + [Totp(counter)])
  {
    SnocHistory(h, Totp(counter));
    assert Recoveries(h) + [] == Recoveries(h);
  }

  lemma SpendRecovery(c: Credential, h: seq<Factor>, d: Digest)
    requires CredentialOk(c, h) && c.enabled && d in c.hashes
    ensures CredentialOk(Spent(c, Recovery(d)), h + [Recovery(d)])
  {
    SnocHistory(h, Recovery(d));
    var spent, kept := Recoveries(h), Removed(c.hashes, d);
    DistinctParts(c.hashes, spent);
    RemovedLacks(c.hashes, d);
    DistinctParts(spent, [d]);
    DistinctParts(kept, spent + [d]);
  }

  /** A code accepted under a credential is a later period's, or an unused recovery code. */
  lemma PresentSpends(w: World, c: Credential, h: seq<Factor>, code: string, now: int)
    requires CredentialOk(c, h) && c.enabled
    ensures var f := Present(w, c, code, now);
            Accepted(f) ==> CredentialOk(Spent(c, f), h + [f]) && Spent(c, f).enabled
  {
    var f := Present(w, c, code, now);
    match f
    case Totp(counter) => SpendTotp(c, h, counter);
    case Recovery(d) => SpendRecovery(c, h, d);
    case _ =>
  }

  predicate CredentialsOk(s: State) {
    forall x :: x in s.credentials ==> CredentialOk(s.credentials[x], HistoryOf(s, x))
  }

  // ------------------------------------------------------------- challenge invariants

  /** At most five tries, and nothing after an accepted one. */
  predicate TriesOk(log: seq<bool>) {
    |log| <= MAX_ATTEMPTS && forall i :: 0 <= i < |log| - 1 ==> !log[i]
  }

  predicate ChallengesOk(s: State) {
    && (forall t :: t in s.tries ==> TriesOk(s.tries[t]))
    && (forall t :: t in s.challenges ==>
          && t in s.tries && |s.tries[t]| == s.challenges[t].attempts < MAX_ATTEMPTS
          && forall i :: 0 <= i < |s.tries[t]| ==> !s.tries[t][i])
    && (forall t, u ::
          t in s.challenges && u in s.challenges && s.challenges[t].subject == s.challenges[u].subject ==> t == u)
  }

  lemma AcceptingKeeps(s: State, x: Subject, f: Factor)
    requires CredentialsOk(s) && x in s.credentials
    requires CredentialOk(Spent(s.credentials[x], f), HistoryOf(s, x) + [f])
    ensures CredentialsOk(Accepting(s, x, f))
  {
  }

  lemma ConsumeKeeps(w: World, s: State, token: string, code: string, now: int)
    requires CredentialsOk(s)
    ensures CredentialsOk(Consuming(w, s, token, code, now).0)
  {
    if Findable(s, token) && !Stale(s.challenges[token], now) && Enabled(s, s.challenges[token].subject) {
      var x := s.challenges[token].subject;
      PresentSpends(w, s.credentials[x], HistoryOf(s, x), code, now);
      var f := Present(w, s.credentials[x], code, now);
      if Accepted(f) {
        AcceptingKeeps(s, x, f);
      }
    }
  }

  lemma VerifyKeeps(w: World, s: State, x: Subject, code: string, now: int)
    requires CredentialsOk(s)
    ensures CredentialsOk(Verifying(w, s, x, code, now).0)
  {
    if Enabled(s, x) {
      PresentSpends(w, s.credentials[x], HistoryOf(s, x), code, now);
      var f := Present(w, s.credentials[x], code, now);
      if Accepted(f) {
        AcceptingKeeps(s, x, f);
      }
    }
  }

  lemma EnableKeeps(w: World, s: State, x: Subject, code: string, codes: seq<string>, now: int)
    requires CredentialsOk(s) && |codes| == CODE_COUNT && Distinct(Hashes(w, codes))
    ensures CredentialsOk(Enabling(w, s, x, code, codes, now))
  {
    if x in s.credentials {
      var f := Verify(w, s.credentials[x].secret, Strip(code, WHITESPACE), None, now);
      SnocHistory([], f);
      assert [] + [f] == [f];
      assert Hashes(w, codes) + [] == Hashes(w, codes);
    }
  }

  lemma CredentialStep(w: World, s: State, e: Event)
    requires CredentialsOk(s) && Proper(w, s, e)
    ensures CredentialsOk(Apply(w, s, e))
  {
    match e
    case Enable(subject, code, codes, now) => EnableKeeps(w, s, subject, code, codes, now);
    case Consume(token, code, now) => ConsumeKeeps(w, s, token, code, now);
    case VerifySecond(x, code, now) => VerifyKeeps(w, s, x, code, now);
    case _ =>
  }

  lemma TriedKeeps(s: State, token: string, f: Factor)
    requires ChallengesOk(s) && token in s.challenges && s.challenges[token].subject in s.credentials
    ensures ChallengesOk(Tried(s, token, f).0)
  {
  }

  lemma DroppedKeeps(s: State, subject: Subject)
    requires ChallengesOk(s)
    ensures ChallengesOk(s.(challenges := Dropped(s.challenges, subject)))
  {
  }

  lemma CreateKeeps(s: State, subject: Subject, token: string, now: int)
    requires ChallengesOk(s) && token !in s.tries
    ensures ChallengesOk(Challenged(s, subject, token, now))
  {
  }

  /** Challenges look only at these two tables. */
  lemma SameChallenges(s: State, r: State)
    requires ChallengesOk(s) && r.challenges == s.challenges && r.tries == s.tries
    ensures ChallengesOk(r)
  {
  }

  lemma ConsumeChallenge(w: World, s: State, token: string, code: string, now: int)
    requires ChallengesOk(s)
    ensures ChallengesOk(Consuming(w, s, token, code, now).0)
  {
    if Findable(s, token) && !Stale(s.challenges[token], now) && Enabled(s, s.challenges[token].subject) {
      var c := s.challenges[token];
      var f := if 6 <= |Strip(code, WHITESPACE)| <= 32 then Present(w, s.credentials[c.subject], code, now)
               else Rejected;
      TriedKeeps(s, token, f);
    }
  }

  lemma ChallengeStep(w: World, s: State, e: Event)
    requires ChallengesOk(s) && Proper(w, s, e)
    ensures ChallengesOk(Apply(w, s, e))
  {
    var r := Apply(w, s, e);
    match e
    case Create(subject, token, now) => CreateKeeps(s, subject, token, now);
    case Consume(token, code, now) => ConsumeChallenge(w, s, token, code, now);
    case SavePending(subject, _) => SameChallenges(s, r);
    case VerifySecond(subject, _, _) => SameChallenges(s, r);
    case Enable(subject, _, _, _) =>
      DroppedKeeps(s, subject);
      SameChallenges(if r == s then s else s.(challenges := Dropped(s.challenges, subject)), r);
    case Remove(subject) =>
      DroppedKeeps(s, subject);
      SameChallenges(s.(challenges := Dropped(s.challenges, subject)), r);
  }

  lemma {:induction false} LifeRun(w: World, s: State, es: seq<Event>)
    requires CredentialsOk(s) && ChallengesOk(s) && Legal(w, s, es)
    ensures CredentialsOk(Run(w, s, es)) && ChallengesOk(Run(w, s, es))
    decreases |es|
  {
    if es != [] {
      CredentialStep(w, s, es[0]);
      ChallengeStep(w, s, es[0]);
      LifeRun(w, Apply(w, s, es[0]), es[1..]);
    }
  }

  /** Over the whole life of an enabled credential the accepted TOTP counters strictly
      increase, the enabling one first (section 5.2 of RFC 6238); unused and accepted
      recovery codes always total ten; and no recovery code is accepted twice. */
  lemma FactorsOverALife(w: World, es: seq<Event>, x: Subject)
    requires Legal(w, EMPTY, es) && Enabled(Run(w, EMPTY, es), x)
    ensures var s := Run(w, EMPTY, es);
            var h, unused := HistoryOf(s, x), s.credentials[x].hashes;
            && Increasing(Counters(h)) && Counters(h) != []
            && s.credentials[x].last == Some(Counters(h)[|Counters(h)| - 1])
            && |unused| + |Recoveries(h)| == CODE_COUNT
            && Distinct(Recoveries(h)) && forall d :: d in Recoveries(h) ==> d !in unused
  {
    LifeRun(w, EMPTY, es);
    var s := Run(w, EMPTY, es);
    DistinctParts(s.credentials[x].hashes, Recoveries(HistoryOf(s, x)));
  }

  /** A challenge is tried at most five times and accepts at most once, with its last try; a
      subject has at most one challenge. */
  lemma ChallengesAreSingleUse(w: World, es: seq<Event>)
    requires Legal(w, EMPTY, es)
    ensures var s := Run(w, EMPTY, es);
            && (forall t :: t in s.tries ==> TriesOk(s.tries[t]))
            && (forall t :: t in s.tries && true in s.tries[t] ==> t !in s.challenges)
            && (forall t, u ::
                  t in s.challenges && u in s.challenges && s.challenges[t].subject == s.challenges[u].subject
                  ==> t == u)
  {
    LifeRun(w, EMPTY, es);
  }

  /** A login through a challenge is granted exactly when a try is recorded as accepted. It
      needs a live challenge below its fifth failure and an enabled credential, ends the
      challenge, and uses up the factor presented. */
  lemma ConsumeGrants(w: World, s: State, token: string, code: string, now: int)
    requires ChallengesOk(s)
    ensures var (r, who) := Consuming(w, s, token, code, now);
            && (who.Some? <==> TriesOf(r, token) == TriesOf(s, token) + [true])
            && (who.Some? ==>
                  && token in s.challenges && who.value == s.challenges[token].subject && Enabled(s, who.value)
                  && s.challenges[token].expires > now && |TriesOf(s, token)| < MAX_ATTEMPTS
                  && token !in r.challenges
                  && exists f :: Accepted(f) && f == Present(w, s.credentials[who.value], code, now)
                              && HistoryOf(r, who.value) == HistoryOf(s, who.value) + [f])
  {
    if Findable(s, token) && !Stale(s.challenges[token], now) && Enabled(s, s.challenges[token].subject) {
      var f := Present(w, s.credentials[s.challenges[token].subject], code, now);
      assert TriesOf(s, token) + [false] != TriesOf(s, token) + [true] by {
        assert (TriesOf(s, token) + [false])[|TriesOf(s, token)|] == false;
      }
    }
  }

  // --------------------------------------------------------------- codes and their digests

  /** What the real functions are relied on for: SHA-256 does not collide, and the recovery
      alphabet is upper case. */
  ghost predicate Sane(w: World) {
    && (forall a, b :: w.digest(a) == w.digest(b) ==> a == b)
    && forall c :: c in ALPHABET ==> w.upper(c) == [c]
  }

  lemma {:induction false} DashesGo(a: string, b: string)
    ensures WithoutDashes(a + b) == WithoutDashes(a) + WithoutDashes(b)
  {
    if a == [] {
      assert a + b == b;
    } else {
      assert (a + b)[1..] == a[1..] + b;
      DashesGo(a[1..], b);
    }
  }

  /** A character that normalising leaves as it is. */
  predicate Plain(w: World, c: char, ws: set<char>) {
    c != '-' && c !in ws && w.upper(c) == [c]
  }

  lemma AlphabetRange(c: char)
    requires c in ALPHABET
    ensures '2' <= c <= 'Z'
  {
  }

  lemma WhitespaceRange(c: char)
    requires c in WHITESPACE
    ensures !('2' <= c <= 'Z')
  {
  }

  lemma AlphabetIsPlain(w: World, c: char)
    requires Sane(w) && c in ALPHABET
    ensures Plain(w, c, WHITESPACE)
  {
    AlphabetRange(c);
    if c in WHITESPACE {
      WhitespaceRange(c);
    }
  }

  lemma {:induction false} PlainStays(w: World, s: string, ws: set<char>)
    requires forall i :: 0 <= i < |s| ==> Plain(w, s[i], ws)
    ensures WithoutDashes(s) == s && Upper(w, s) == s
  {
    if s != [] {
      PlainStays(w, s[1..], ws);
      assert s == [s[0]] + s[1..];
    }
  }

  lemma DashAfter(a: string)
    ensures WithoutDashes(a + "-") == WithoutDashes(a)
  {
    DashesGo(a, "-");
    assert "-"[1..] == "" && WithoutDashes("-") == "";
  }

  lemma DashesOfCode(w: World, raw: string, ws: set<char>)
    requires |raw| == 12 && forall i :: 0 <= i < |raw| ==> Plain(w, raw[i], ws)
    ensures WithoutDashes(Formatted(raw)) == raw
  {
    var a, b, c := raw[..4], raw[4..8], raw[8..];
    PlainStays(w, a, ws);
    PlainStays(w, b, ws);
    PlainStays(w, c, ws);
    DashesGo(a + "-" + b + "-", c);
    DashAfter(a + "-" + b);
    DashesGo(a + "-", b);
    DashAfter(a);
    assert raw == a + b + c;
  }

  lemma PlainCodeRestores(w: World, raw: string, ws: set<char>)
    requires |raw| == 12 && forall i :: 0 <= i < |raw| ==> Plain(w, raw[i], ws)
    ensures Upper(w, Strip(WithoutDashes(Formatted(raw)), ws)) == raw
  {
    DashesOfCode(w, raw, ws);
    assert Plain(w, raw[0], ws) && Plain(w, raw[11], ws);
    StripTrimmed(raw, ws);
    PlainStays(w, raw, ws);
  }

  /** A generated code is recognised again from its twelve characters. */
  lemma NormalizedRestores(w: World, raw: string)
    requires Sane(w) && |raw| == 12 && Raw(raw)
    ensures Normalized(w, Formatted(raw)) == raw
  {
    forall i | 0 <= i < |raw| ensures Plain(w, raw[i], WHITESPACE) {
      AlphabetIsPlain(w, raw[i]);
    }
    PlainCodeRestores(w, raw, WHITESPACE);
  }

  /** So different generated codes have different digests, as Proper asks of an Enable. */
  lemma GeneratedDigestsDiffer(w: World, codes: seq<string>, raws: seq<string>)
    requires Sane(w) && |codes| == |raws|
    requires forall i :: 0 <= i < |raws| ==> |raws[i]| == 12 && Raw(raws[i]) && codes[i] == Formatted(raws[i])
    requires forall i, j :: 0 <= i < j < |codes| ==> codes[i] != codes[j]
    ensures Distinct(Hashes(w, codes))
  {
    forall i, j | 0 <= i < j < |codes|
      ensures CodeHash(w, codes[i]) != CodeHash(w, codes[j])
    {
      NormalizedRestores(w, raws[i]);
      NormalizedRestores(w, raws[j]);
    }
  }

  predicate Shows(w: World, secret: string, code: string, last: Option<int>, k: int) {
    After(last, k) && w.totp(secret, k) == code
  }

  /** A six-digit code is accepted exactly when it shows one of the three periods around now
      that is after the last accepted one, and it is entered under the earliest of them. */
  lemma VerifyWindow(w: World, secret: string, code: string, last: Option<int>, now: int)
    requires |code| == DIGITS && AllDigits(w, code) && Ascii(code)
    ensures var c := now / PERIOD;
            var f := Verify(w, secret, code, last, now);
            && (f.Totp? <==> exists k :: c - 1 <= k <= c + 1 && Shows(w, secret, code, last, k))
            && (f.Totp? ==>
                  && c - 1 <= f.counter <= c + 1 && Shows(w, secret, code, last, f.counter)
                  && forall k :: c - 1 <= k < f.counter ==> !Shows(w, secret, code, last, k))
  {
    var c := now / PERIOD;
    assert Shows(w, secret, code, last, c - 1) || Shows(w, secret, code, last, c)
        || Shows(w, secret, code, last, c + 1) || Verify(w, secret, code, last, now) == Rejected;
  }

  // ------------------------------------------------------------ exactly what happens when

  /** A code that shows one of the three periods around now, after the last accepted one. */
  ghost predicate TotpFits(w: World, secret: string, code: string, last: Option<int>, now: int) {
    && |code| == 6 && AllDigits(w, code) && Ascii(code)
    && exists k :: now / 30 - 1 <= k <= now / 30 + 1 && Shows(w, secret, code, last, k)
  }

  /** Six digits that are not ASCII cannot be compared, if there is anything to compare with. */
  predicate TotpRaises(w: World, code: string, last: Option<int>, now: int) {
    |code| == 6 && AllDigits(w, code) && !Ascii(code) && (last == None || now / 30 + 1 > last.value)
  }

  lemma VerifyExactly(w: World, secret: string, code: string, last: Option<int>, now: int)
    ensures var f := Verify(w, secret, code, last, now);
            && (f.Totp? <==> TotpFits(w, secret, code, last, now))
            && (f.Raises? <==> TotpRaises(w, code, last, now))
            && !f.Recovery?
            && (f.Totp? ==>
                  && now / 30 - 1 <= f.counter <= now / 30 + 1 && Shows(w, secret, code, last, f.counter)
                  && forall k :: now / 30 - 1 <= k < f.counter ==> !Shows(w, secret, code, last, k))
  {
    if |code| == DIGITS && AllDigits(w, code) && Ascii(code) {
      VerifyWindow(w, secret, code, last, now);
    }
  }

  /** The code fits the credential: as a TOTP code, else as an unused recovery code. */
  ghost predicate FactorFits(w: World, c: Credential, code: string, now: int) {
    var typed := Strip(code, WHITESPACE);
    && !TotpRaises(w, typed, c.last, now)
    && (TotpFits(w, c.secret, typed, c.last, now) || CodeHash(w, code) in c.hashes)
  }

  /** The credential once a fitting code is used up: the period's counter is taken, or the
      recovery code is gone. */
  ghost predicate UsedUp(w: World, c: Credential, d: Credential, code: string, now: int) {
    var typed := Strip(code, WHITESPACE);
    if TotpFits(w, c.secret, typed, c.last, now) then
      && d.last.Some? && d == c.(last := d.last)
      && now / 30 - 1 <= d.last.value <= now / 30 + 1 && Shows(w, c.secret, typed, c.last, d.last.value)
    else
      d == c.(hashes := Removed(c.hashes, CodeHash(w, code)))
  }

  lemma PresentExactly(w: World, c: Credential, code: string, now: int)
    ensures var f := Present(w, c, code, now);
            && (Accepted(f) <==> FactorFits(w, c, code, now))
            && (f.Raises? <==> TotpRaises(w, Strip(code, WHITESPACE), c.last, now))
            && (Accepted(f) ==> UsedUp(w, c, Spent(c, f), code, now))
  {
    VerifyExactly(w, c.secret, Strip(code, WHITESPACE), c.last, now);
  }

  /** Only the credential of x differs. */
  predicate OnlyCredential(s: State, r: State, x: Subject) {
    r.credentials.Keys == s.credentials.Keys && forall y :: y in s.credentials && y != x ==>
      r.credentials[y] == s.credentials[y]
  }

  /** A login is granted exactly with a live challenge, an enabled credential, and a code of
      acceptable length that fits; it ends the challenge and uses up the code. Any other try
      counts against the challenge, unless it found none or the comparison raised; a dead
      challenge is deleted. */
  lemma ConsumesExactly(w: World, s: State, token: string, code: string, now: int)
    ensures var (r, who) := Consuming(w, s, token, code, now);
            var typed := Strip(code, WHITESPACE);
            if !(0 < |token| <= 200 && token in s.challenges) then who == None && r == s
            else
              var c := s.challenges[token];
              if c.expires <= now || c.attempts >= 5 || !Enabled(s, c.subject) then
                who == None && r == s.(challenges := s.challenges - {token})
              else if 6 <= |typed| <= 32 && TotpRaises(w, typed, s.credentials[c.subject].last, now) then
                who == None && r == s
              else if 6 <= |typed| <= 32 && FactorFits(w, s.credentials[c.subject], code, now) then
                && who == Some(c.subject) && r.challenges == s.challenges - {token}
                && OnlyCredential(s, r, c.subject)
                && UsedUp(w, s.credentials[c.subject], r.credentials[c.subject], code, now)
              else
                && who == None && r.credentials == s.credentials
                && r.challenges == if c.attempts + 1 >= 5 then s.challenges - {token}
                                   else s.challenges[token := c.(attempts := c.attempts + 1)]
  {
    if Findable(s, token) && Enabled(s, s.challenges[token].subject) {
      PresentExactly(w, s.credentials[s.challenges[token].subject], code, now);
    }
  }

  /** The same without a challenge. None stands for an exception. */
  lemma VerifiesExactly(w: World, s: State, x: Subject, code: string, now: int)
    ensures var (r, ok) := Verifying(w, s, x, code, now);
            && r.challenges == s.challenges
            && if !Enabled(s, x) then ok == Some(false) && r == s
               else if TotpRaises(w, Strip(code, WHITESPACE), s.credentials[x].last, now) then ok == None && r == s
               else if FactorFits(w, s.credentials[x], code, now) then
                 && ok == Some(true) && OnlyCredential(s, r, x)
                 && UsedUp(w, s.credentials[x], r.credentials[x], code, now)
               else ok == Some(false) && r == s
  {
    if Enabled(s, x) {
      PresentExactly(w, s.credentials[x], code, now);
    }
  }

  lemma FormattedIsTrim(w: World, raw: string)
    requires Sane(w) && |raw| == 12 && Raw(raw)
    ensures |Formatted(raw)| == 14 && Strip(Formatted(raw), WHITESPACE) == Formatted(raw)
  {
    var code := Formatted(raw);
    assert code[0] == raw[0] && code[13] == raw[11];
    AlphabetIsPlain(w, raw[0]);
    AlphabetIsPlain(w, raw[11]);
    StripTrimmed(code, WHITESPACE);
  }

  /** A generated recovery code that has not been used is accepted by a live challenge, as it
      was given out, and only once. */
  lemma RecoveryCodeGranted(w: World, s: State, token: string, raw: string, now: int)
    requires Sane(w) && |raw| == 12 && Raw(raw)
    requires 0 < |token| <= 200 && token in s.challenges
    requires s.challenges[token].expires > now && s.challenges[token].attempts < 5
    requires Enabled(s, s.challenges[token].subject)
    requires CodeHash(w, Formatted(raw)) in s.credentials[s.challenges[token].subject].hashes
    requires Distinct(s.credentials[s.challenges[token].subject].hashes)
    ensures var (r, who) := Consuming(w, s, token, Formatted(raw), now);
            && who == Some(s.challenges[token].subject)
            && who.value in r.credentials && CodeHash(w, Formatted(raw)) !in r.credentials[who.value].hashes
  {
    var x, code := s.challenges[token].subject, Formatted(raw);
    FormattedIsTrim(w, raw);
    ConsumesExactly(w, s, token, code, now);
    RemovedLacks(s.credentials[x].hashes, CodeHash(w, code));
  }

  /** So is a TOTP code that shows the current period, when no later one was accepted. */
  lemma CurrentCodeGranted(w: World, s: State, token: string, code: string, now: int)
    requires |code| == 6 && AllDigits(w, code) && Ascii(code) && Strip(code, WHITESPACE) == code
    requires 0 < |token| <= 200 && token in s.challenges
    requires s.challenges[token].expires > now && s.challenges[token].attempts < 5
    requires Enabled(s, s.challenges[token].subject)
    requires var c := s.credentials[s.challenges[token].subject];
             w.totp(c.secret, now / 30) == code && After(c.last, now / 30)
    ensures Consuming(w, s, token, code, now).1 == Some(s.challenges[token].subject)
  {
    var c := s.credentials[s.challenges[token].subject];
    assert Shows(w, c.secret, code, c.last, now / 30);
    ConsumesExactly(w, s, token, code, now);
  }

  /** A credential is enabled exactly when it is pending and the code fits its secret; the
      confirming counter is taken, the codes' digests are stored, and the subject's open
      challenges end. */
  lemma EnablesExactly(w: World, s: State, x: Subject, code: string, codes: seq<string>, now: int)
    ensures var r := Enabling(w, s, x, code, codes, now);
            var typed := Strip(code, WHITESPACE);
            if x in s.credentials && !s.credentials[x].enabled
               && TotpFits(w, s.credentials[x].secret, typed, None, now) then
              && OnlyCredential(s, r, x)
              && var c, d := s.credentials[x], r.credentials[x];
                 && d.enabled && d.secret == c.secret && |d.hashes| == |codes|
                 && (forall i :: 0 <= i < |codes| ==> d.hashes[i] == CodeHash(w, codes[i]))
                 && d.last.Some? && Shows(w, c.secret, typed, None, d.last.value)
                 && now / 30 - 1 <= d.last.value <= now / 30 + 1
                 && (forall t :: t in r.challenges <==> t in s.challenges && s.challenges[t].subject != x)
                 && (forall t :: t in r.challenges ==> r.challenges[t] == s.challenges[t])
            else r == s
  {
    if x in s.credentials {
      VerifyExactly(w, s.credentials[x].secret, Strip(code, WHITESPACE), None, now);
    }
  }
}

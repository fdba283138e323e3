/** Second factors: TOTP codes, recovery codes and login challenges
    (src/wecom_ai_gateway/mfa.py, totp.py).

    A World holds what is not computed here: the code a secret shows in a period (HMAC), the
    digest of a recovery code (SHA-256), upper-casing, and which characters count as digits. */
module Mfa {
  import opened Basics
  import opened Text

  const PERIOD := 30
  const DIGITS: nat := 6
  const CHALLENGE_TTL := 300
  const MAX_ATTEMPTS: nat := 5
  const CODE_COUNT: nat := 10
  const ALPHABET := "23456789ABCDEFGHJKLMNPQRSTUVWXYZ"

  datatype Digest = Digest(hex: string)

  datatype World = World(
    totp: (string, int) -> string,
    digest: string -> Digest,
    upper: char -> string,
    digits: set<char>)

  datatype Subject = Subject(kind: string, id: string)

  datatype Credential = Credential(secret: string, enabled: bool, hashes: seq<Digest>, last: Option<int>)

  datatype Challenge = Challenge(subject: Subject, attempts: nat, expires: int)

  /** What one presented code comes to. */
  datatype Factor = Totp(counter: int) | Recovery(digest: Digest) | Rejected | Raises

  // ------------------------------------------------------------------------- TOTP

  predicate AllDigits(w: World, code: string) {
    code != "" && forall i :: 0 <= i < |code| ==> code[i] in w.digits
  }

  predicate Ascii(code: string) {
    forall i :: 0 <= i < |code| ==> code[i] < 128 as char
  }

  predicate After(last: Option<int>, candidate: int) {
    last == None || candidate > last.value
  }

  /** The counter of the earliest period, of the last, this and the next, that is after the
      last accepted one and shows the code. Comparing a code that is not ASCII raises. */
  function Verify(w: World, secret: string, code: string, last: Option<int>, now: int): Factor {
    var c := now / PERIOD;
    if |code| != DIGITS || !AllDigits(w, code) then Rejected
    else if !After(last, c + 1) then Rejected
    else if !Ascii(code) then Raises
    else if After(last, c - 1) && w.totp(secret, c - 1) == code then Totp(c - 1)
    else if After(last, c) && w.totp(secret, c) == code then Totp(c)
    else if w.totp(secret, c + 1) == code then Totp(c + 1)
    else Rejected
  }

  method VerifyTotp(w: World, secret: string, code: string, last: Option<int>, now: int) returns (r: Factor)
    ensures r == Verify(w, secret, code, last, now)
  {
    if |code| != DIGITS || !AllDigits(w, code) {
      return Rejected;
    }
    var current := now / PERIOD;
    for candidate := current - 1 to current + 2
      invariant After(last, candidate - 1) && candidate > current - 1 ==> Ascii(code)
      invariant forall c :: current - 1 <= c < candidate ==> !(After(last, c) && w.totp(secret, c) == code)
    {
      if After(last, candidate) {
        if !Ascii(code) {
          return Raises;
        }
        if w.totp(secret, candidate) == code {
          return Totp(candidate);
        }
      }
    }
    return Rejected;
  }

  // --------------------------------------------------------------- recovery codes

  function WithoutDashes(s: string): string {
    if s == [] then [] else (if s[0] == '-' then [] else [s[0]]) + WithoutDashes(s[1..])
  }

  function Upper(w: World, s: string): string {
    if s == [] then [] else w.upper(s[0]) + Upper(w, s[1..])
  }

  function Normalized(w: World, code: string): string {
    Upper(w, Strip(WithoutDashes(code), WHITESPACE))
  }

  function CodeHash(w: World, code: string): Digest {
    w.digest(Normalized(w, code))
  }

  predicate Raw(s: string) {
    |s| == 12 && forall i :: 0 <= i < 12 ==> s[i] in ALPHABET
  }

  function Formatted(raw: string): string
    requires |raw| == 12
  {
    raw[..4] + "-" + raw[4..8] + "-" + raw[8..]
  }

  /** The different codes a stretch of draws gives. */
  function CodesOf(draws: seq<string>): set<string>
    requires forall i :: 0 <= i < |draws| ==> |draws[i]| == 12
  {
    set i | 0 <= i < |draws| :: Formatted(draws[i])
  }

  lemma {:induction false} SetIsNoLonger(s: seq<string>)
    ensures |set x | x in s| <= |s|
  {
    if s != [] {
      SetIsNoLonger(s[1..]);
      assert (set x | x in s) == {s[0]} + set x | x in s[1..];
    }
  }

  lemma {:induction false} SmallerSet(a: set<string>, b: set<string>)
    requires a <= b
    ensures |a| <= |b|
  {
    if a != {} {
      var x :| x in a;
      SmallerSet(a - {x}, b - {x});
    }
  }

  lemma MoreToDraw(draws: seq<string>, codes: seq<string>, k: nat)
    requires forall i :: 0 <= i < |draws| ==> |draws[i]| == 12
    requires |codes| < |CodesOf(draws)| && k <= |draws|
    requires forall j :: 0 <= j < k ==> Formatted(draws[j]) in codes
    ensures k < |draws|
  {
    if k == |draws| {
      SetIsNoLonger(codes);
      SmallerSet(CodesOf(draws), set x | x in codes);
    }
  }

  /** The draws are the random source; enough of them differ. */
  method GenerateRecoveryCodes(draws: seq<string>) returns (codes: seq<string>)
    requires forall i :: 0 <= i < |draws| ==> |draws[i]| == 12 && Raw(draws[i])
    requires |CodesOf(draws)| >= CODE_COUNT
    ensures |codes| == CODE_COUNT && forall i, j :: 0 <= i < j < |codes| ==> codes[i] != codes[j]
    ensures forall i :: 0 <= i < |codes| ==> exists j :: 0 <= j < |draws| && codes[i] == Formatted(draws[j])
  {
    codes := [];
    var k := 0;
    while |codes| < CODE_COUNT
      invariant 0 <= k <= |draws| && |codes| <= CODE_COUNT
      invariant forall i, j :: 0 <= i < j < |codes| ==> codes[i] != codes[j]
      invariant forall i :: 0 <= i < |codes| ==> exists j :: 0 <= j < |draws| && codes[i] == Formatted(draws[j])
      invariant forall j :: 0 <= j < k ==> Formatted(draws[j]) in codes
      decreases |draws| - k
    {
      MoreToDraw(draws, codes, k);
      var code := Formatted(draws[k]);
      if code !in codes {
        codes := codes + [code];
      }
      k := k + 1;
    }
  }

  predicate Distinct(s: seq<Digest>) {
    forall i, j :: 0 <= i < j < |s| ==> s[i] != s[j]
  }

  // ----------------------------------------------------------------- the life cycle

  /** history keeps, per credential since it was enabled, what was accepted; tries keeps, per
      challenge, the outcomes of the codes presented to it. */
  datatype State = State(
    credentials: map<Subject, Credential>,
    challenges: map<string, Challenge>,
    history: map<Subject, seq<Factor>>,
    tries: map<string, seq<bool>>)

  datatype Event =
    | SavePending(subject: Subject, secret: string)
    | Enable(subject: Subject, code: string, codes: seq<string>, now: int)
    | Create(subject: Subject, token: string, now: int)
    | Consume(token: string, code: string, now: int)
    | VerifySecond(subject: Subject, code: string, now: int)
    | Remove(subject: Subject)

  const EMPTY := State(map[], map[], map[], map[])

  function Dropped(challenges: map<string, Challenge>, subject: Subject): map<string, Challenge> {
    map t | t in challenges && challenges[t].subject != subject :: challenges[t]
  }

  predicate Enabled(s: State, subject: Subject) {
    subject in s.credentials && s.credentials[subject].enabled
  }

  /** The list without the first x. */
  function Removed(l: seq<Digest>, x: Digest): seq<Digest> {
    if l == [] then [] else if l[0] == x then l[1..] else [l[0]] + Removed(l[1..], x)
  }

  /** A TOTP code first, a recovery code otherwise. */
  function Present(w: World, c: Credential, code: string, now: int): Factor {
    var f := Verify(w, c.secret, Strip(code, WHITESPACE), c.last, now);
    if f != Rejected then f
    else if CodeHash(w, code) in c.hashes then Recovery(CodeHash(w, code))
    else Rejected
  }

  function Spent(c: Credential, f: Factor): Credential {
    match f
    case Totp(counter) => c.(last := Some(counter))
    case Recovery(digest) => c.(hashes := Removed(c.hashes, digest))
    case _ => c
  }

  /** What the subject's enabled credential has accepted, the code that enabled it first. */
  function HistoryOf(s: State, subject: Subject): seq<Factor> {
    if subject in s.history then s.history[subject] else []
  }

  function TriesOf(s: State, token: string): seq<bool> {
    if token in s.tries then s.tries[token] else []
  }

  predicate Accepted(f: Factor) {
    f.Totp? || f.Recovery?
  }

  /** The factor is used up and entered in the credential's history. */
  function Accepting(s: State, subject: Subject, f: Factor): State
    requires subject in s.credentials
  {
    s.(credentials := s.credentials[subject := Spent(s.credentials[subject], f)],
       history := s.history[subject := HistoryOf(s, subject) + [f]])
  }

  function Pending(s: State, subject: Subject, secret: string): State {
    if Enabled(s, subject) then s
    else s.(credentials := s.credentials[subject := Credential(secret, false, [], None)],
            history := s.history - {subject})
  }

  function Hashes(w: World, codes: seq<string>): seq<Digest> {
    seq(|codes|, i requires 0 <= i < |codes| => CodeHash(w, codes[i]))
  }

  function Enabling(w: World, s: State, subject: Subject, code: string, codes: seq<string>, now: int): State {
    if subject !in s.credentials || s.credentials[subject].enabled then s
    else
      var secret := s.credentials[subject].secret;
      var f := Verify(w, secret, Strip(code, WHITESPACE), None, now);
      if !f.Totp? then s
      else
        s.(credentials := s.credentials[subject := Credential(secret, true, Hashes(w, codes), Some(f.counter))],
           challenges := Dropped(s.challenges, subject),
           history := s.history[subject := [f]])
  }

  function Challenged(s: State, subject: Subject, token: string, now: int): State {
    var kept := map t | t in s.challenges && s.challenges[t].expires > now && s.challenges[t].subject != subject ::
      s.challenges[t];
    s.(challenges := kept[token := Challenge(subject, 0, now + CHALLENGE_TTL)], tries := s.tries[token := []])
  }

  /** _challenge: an unknown token finds nothing; a stale or worn-out challenge is deleted. */
  predicate Findable(s: State, token: string) {
    0 < |token| <= 200 && token in s.challenges
  }

  predicate Stale(c: Challenge, now: int) {
    c.expires <= now || c.attempts >= MAX_ATTEMPTS
  }

  function Tried(s: State, token: string, f: Factor): (State, Option<Subject>)
    requires token in s.challenges && s.challenges[token].subject in s.credentials
  {
    var c := s.challenges[token];
    var log := TriesOf(s, token);
    if f.Raises? then (s, None)
    else if f.Rejected? then
      (s.(challenges := if c.attempts + 1 >= MAX_ATTEMPTS then s.challenges - {token}
                        else s.challenges[token := c.(attempts := c.attempts + 1)],
          tries := s.tries[token := log + [false]]), None)
    else
      (Accepting(s, c.subject, f).(challenges := s.challenges - {token}, tries := s.tries[token := log + [true]]),
       Some(c.subject))
  }

  function Consuming(w: World, s: State, token: string, code: string, now: int): (State, Option<Subject>) {
    if !Findable(s, token) then (s, None)
    else
      var c := s.challenges[token];
      if Stale(c, now) || !Enabled(s, c.subject) then
        (s.(challenges := s.challenges - {token}), None)
      else
        var typed := Strip(code, WHITESPACE);
        var f := if 6 <= |typed| <= 32 then Present(w, s.credentials[c.subject], code, now) else Rejected;
        Tried(s, token, f)
  }

  function Verifying(w: World, s: State, subject: Subject, code: string, now: int): (State, Option<bool>) {
    if !Enabled(s, subject) then (s, Some(false))
    else
      var f := Present(w, s.credentials[subject], code, now);
      if f.Raises? then (s, None)
      else if f.Rejected? then (s, Some(false))
      else (Accepting(s, subject, f), Some(true))
  }

  function Removing(s: State, subject: Subject): State {
    s.(credentials := s.credentials - {subject}, challenges := Dropped(s.challenges, subject),
       history := s.history - {subject})
  }
}

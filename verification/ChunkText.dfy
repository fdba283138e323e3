/** Normalising a document and cutting it into overlapping chunks
    (src/wecom_ai_gateway/knowledge.py _normalize_text and chunk_text). */
module ChunkText {
  import opened Basics
  import opened Text

  const OVERLAP := 40
  const MAX_CHARS: nat := 500000

  // ------------------------------------------------------------------ normalisation

  /** NUL becomes a space. */
  function WithoutNul(s: string): (r: string)
    ensures |r| == |s|
  {
    seq(|s|, i requires 0 <= i < |s| => if s[i] == '\0' then ' ' else s[i])
  }

  /** Both "\r\n" and a lone "\r" become "\n". */
  function Lines(s: string): string {
    if s == [] then []
    else if s[0] != '\r' then [s[0]] + Lines(s[1..])
    else if |s| > 1 && s[1] == '\n' then Lines(s[1..])
    else ['\n'] + Lines(s[1..])
  }

  predicate Gap(c: char) {
    c == ' ' || c == '\t'
  }

  /** A run of tabs and spaces becomes one space. */
  function OneSpace(s: string): string {
    if s == [] then []
    else if !Gap(s[0]) then [s[0]] + OneSpace(s[1..])
    else if |s| > 1 && Gap(s[1]) then OneSpace(s[1..])
    else [' '] + OneSpace(s[1..])
  }

  /** A run of three or more newlines becomes two. */
  function TwoLines(s: string): string {
    if s == [] then []
    else if |s| > 2 && s[0] == '\n' && s[1] == '\n' && s[2] == '\n' then TwoLines(s[1..])
    else [s[0]] + TwoLines(s[1..])
  }

  function Tidy(s: string): string {
    TwoLines(OneSpace(Lines(WithoutNul(s))))
  }

  function Normalized(s: string, ws: set<char>): (r: string)
    ensures |r| <= MAX_CHARS
  {
    var t := Strip(Tidy(s), ws);
    t[..Min(|t|, MAX_CHARS)]
  }

  /** The characters that are not whitespace, in order. */
  function Ink(s: string, ws: set<char>): string {
    if s == [] then []
    else (if s[0] in ws then [] else [s[0]]) + Ink(s[1..], ws)
  }

  predicate Spacing(ws: set<char>) {
    ' ' in ws && '\t' in ws && '\n' in ws && '\r' in ws
  }

  lemma {:induction false} LinesKeepInk(s: string, ws: set<char>)
    requires Spacing(ws)
    ensures Ink(Lines(s), ws) == Ink(s, ws)
  {
    if s != [] {
      LinesKeepInk(s[1..], ws);
      var head := if s[0] == '\r' then '\n' else s[0];
      assert ([head] + Lines(s[1..]))[1..] == Lines(s[1..]);
    }
  }

  lemma {:induction false} OneSpaceKeepsInk(s: string, ws: set<char>)
    requires Spacing(ws)
    ensures Ink(OneSpace(s), ws) == Ink(s, ws)
  {
    if s != [] {
      OneSpaceKeepsInk(s[1..], ws);
      var head := if Gap(s[0]) then ' ' else s[0];
      assert ([head] + OneSpace(s[1..]))[1..] == OneSpace(s[1..]);
    }
  }

  lemma {:induction false} TwoLinesKeepsInk(s: string, ws: set<char>)
    requires Spacing(ws)
    ensures Ink(TwoLines(s), ws) == Ink(s, ws)
  {
    if s != [] {
      TwoLinesKeepsInk(s[1..], ws);
      assert ([s[0]] + TwoLines(s[1..]))[1..] == TwoLines(s[1..]);
    }
  }

  lemma {:induction false} InkCat(a: string, b: string, ws: set<char>)
    ensures Ink(a + b, ws) == Ink(a, ws) + Ink(b, ws)
  {
    if a == [] {
      assert a + b == b;
    } else {
      InkCat(a[1..], b, ws);
      var head := if a[0] in ws then [] else [a[0]];
      assert (a + b)[1..] == a[1..] + b;
      assert Ink(a + b, ws) == head + Ink(a[1..] + b, ws);
      assert head + (Ink(a[1..], ws) + Ink(b, ws)) == (head + Ink(a[1..], ws)) + Ink(b, ws);
    }
  }

  lemma {:induction false} BlankHasNoInk(s: string, ws: set<char>)
    requires Blank(s, ws)
    ensures Ink(s, ws) == []
  {
    if s != [] {
      BlankHasNoInk(s[1..], ws);
    }
  }

  lemma MiddleHasTheInk(s: string, a: nat, b: nat, ws: set<char>)
    requires a <= b <= |s| && Blank(s[..a], ws) && Blank(s[b..], ws)
    ensures Ink(s[a..b], ws) == Ink(s, ws)
  {
    assert s == s[..a] + s[a..b] + s[b..];
    InkCat(s[..a] + s[a..b], s[b..], ws);
    InkCat(s[..a], s[a..b], ws);
    BlankHasNoInk(s[..a], ws);
    BlankHasNoInk(s[b..], ws);
  }

  lemma StripKeepsInk(s: string, ws: set<char>)
    ensures Ink(Strip(s, ws), ws) == Ink(s, ws)
  {
    var a, b := StripWindow(s, ws);
    MiddleHasTheInk(s, a, b, ws);
  }

  /** Normalising changes whitespace only; a text over the limit loses its tail. */
  lemma NormalizingKeepsInk(s: string, ws: set<char>)
    requires Spacing(ws)
    ensures Ink(Normalized(s, ws), ws) <= Ink(WithoutNul(s), ws)
    ensures |Strip(Tidy(s), ws)| <= MAX_CHARS ==> Ink(Normalized(s, ws), ws) == Ink(WithoutNul(s), ws)
  {
    LinesKeepInk(WithoutNul(s), ws);
    OneSpaceKeepsInk(Lines(WithoutNul(s)), ws);
    TwoLinesKeepsInk(OneSpace(Lines(WithoutNul(s))), ws);
    var t := Strip(Tidy(s), ws);
    StripKeepsInk(Tidy(s), ws);
    var n := Min(|t|, MAX_CHARS);
    assert t == t[..n] + t[n..];
    InkCat(t[..n], t[n..], ws);
    if |t| <= MAX_CHARS {
      assert t[..n] == t;
    }
  }

  predicate NoneOf(s: string, bad: set<char>) {
    forall i :: 0 <= i < |s| ==> s[i] !in bad
  }

  predicate NoDoubleSpace(s: string) {
    forall i :: 0 <= i < |s| - 1 ==> !(s[i] == ' ' && s[i + 1] == ' ')
  }

  predicate NoTripleLine(s: string) {
    forall i :: 0 <= i < |s| - 2 ==> !(s[i] == '\n' && s[i + 1] == '\n' && s[i + 2] == '\n')
  }

  /** No NUL, tab or carriage return, no two spaces and no three newlines in a row. */
  predicate IsTidy(s: string) {
    NoneOf(s, {'\0', '\t', '\r'}) && NoDoubleSpace(s) && NoTripleLine(s)
  }

  lemma {:induction false} LinesTidy(s: string)
    requires NoneOf(s, {'\0'})
    ensures NoneOf(Lines(s), {'\0', '\r'})
  {
    if s != [] {
      LinesTidy(s[1..]);
    }
  }

  lemma {:induction false} OneSpaceTidy(s: string)
    requires NoneOf(s, {'\0', '\r'})
    ensures var r := OneSpace(s);
            && NoneOf(r, {'\0', '\t', '\r'}) && NoDoubleSpace(r)
            && (r == [] <==> s == [])
            && (s != [] ==> r[0] == if Gap(s[0]) then ' ' else s[0])
  {
    if s != [] {
      OneSpaceTidy(s[1..]);
    }
  }

  lemma {:induction false} TwoLinesTidy(s: string)
    requires NoneOf(s, {'\0', '\t', '\r'}) && NoDoubleSpace(s)
    ensures IsTidy(TwoLines(s))
    ensures TwoLines(s) == [] <==> s == []
    ensures s != [] ==> TwoLines(s)[0] == s[0]
    ensures |TwoLines(s)| > 1 && TwoLines(s)[0] == '\n' && TwoLines(s)[1] == '\n' ==> |s| > 1 && s[1] == '\n'
  {
    if s != [] {
      TwoLinesTidy(s[1..]);
    }
  }

  lemma TidySlice(s: string, a: nat, b: nat)
    requires IsTidy(s) && a <= b <= |s|
    ensures IsTidy(s[a..b])
  {
  }

  lemma NormalizedIsTidy(s: string, ws: set<char>)
    ensures IsTidy(Normalized(s, ws))
  {
    LinesTidy(WithoutNul(s));
    OneSpaceTidy(Lines(WithoutNul(s)));
    TwoLinesTidy(OneSpace(Lines(WithoutNul(s))));
    var a, b := StripWindow(Tidy(s), ws);
    TidySlice(Tidy(s), a, b);
    var t := Strip(Tidy(s), ws);
    TidySlice(t, 0, Min(|t|, MAX_CHARS));
  }

  lemma {:induction false} TidyIsFixed(s: string)
    requires IsTidy(s)
    ensures WithoutNul(s) == s && Lines(s) == s && OneSpace(s) == s && TwoLines(s) == s
  {
    if s != [] {
      TidySlice(s, 1, |s|);
      TidyIsFixed(s[1..]);
      assert s == [s[0]] + s[1..];
    }
  }

  /** A cut of a stripped text is stripped unless it comes right after whitespace. */
  lemma CutTrimmed(u: string, n: nat, ws: set<char>)
    requires n > 0
    ensures Trimmed(Strip(u, ws)[..Min(|Strip(u, ws)|, n)], ws)
       <==> |Strip(u, ws)| <= n || Strip(u, ws)[n - 1] !in ws
  {
    var t := Strip(u, ws);
    var x, y := StripWindow(u, ws);
    assert t == [] || (t[0] !in ws && t[|t| - 1] !in ws);
  }

  lemma FixedExactlyIfTrimmed(r: string, ws: set<char>)
    requires IsTidy(r) && |r| <= MAX_CHARS
    ensures Normalized(r, ws) == r <==> Trimmed(r, ws)
  {
    TidyIsFixed(r);
    var a, b := StripWindow(r, ws);
    if Trimmed(r, ws) {
      StripTrimmed(r, ws);
    }
  }

  /** Normalising again changes nothing, exactly unless the limit cuts the tidied text right
      after whitespace. */
  lemma NormalizedTwice(s: string, ws: set<char>)
    ensures Normalized(Normalized(s, ws), ws) == Normalized(s, ws)
       <==> |Strip(Tidy(s), ws)| <= MAX_CHARS || Strip(Tidy(s), ws)[MAX_CHARS - 1] !in ws
  {
    NormalizedIsTidy(s, ws);
    FixedExactlyIfTrimmed(Normalized(s, ws), ws);
    CutTrimmed(Tidy(s), MAX_CHARS, ws);
  }

  /** One such text: a space as the last character within the limit, a letter after it. */
  lemma LimitCanCutAfterSpace(ws: set<char>)
    requires ' ' in ws && 'a' !in ws
    ensures var s := seq(MAX_CHARS - 1, _ => 'a') + " a";
            Normalized(Normalized(s, ws), ws) != Normalized(s, ws)
  {
    var s := seq(MAX_CHARS - 1, _ => 'a') + " a";
    TidyIsFixed(s);
    StripTrimmed(s, ws);
    NormalizedTwice(s, ws);
  }

  // ------------------------------------------------------------------------ windows

  function Step(c: int): (r: int)
    ensures r >= 1
  {
    Max(c - OVERLAP, 1)
  }

  /** Where window k starts. */
  function Start(c: int, k: nat): nat {
    if k == 0 then 0 else Start(c, k - 1) + Step(c)
  }

  lemma {:induction false} StartIs(c: int, k: nat)
    ensures Start(c, k) == k * Step(c)
  {
    if k > 0 {
      StartIs(c, k - 1);
      assert k * Step(c) == (k - 1) * Step(c) + Step(c);
    }
  }

  lemma {:induction false} StartsGrow(c: int, a: nat, b: nat)
    requires a <= b
    ensures Start(c, a) <= Start(c, b)
    ensures a < b ==> Start(c, a) + Step(c) <= Start(c, b)
  {
    if a < b {
      StartsGrow(c, a, b - 1);
    }
  }

  /** How many windows are taken in all, k of them so far. */
  function WindowsFrom(n: nat, c: int, k: nat): (m: nat)
    requires c >= 1
    ensures m > k
    decreases n - Start(c, k)
  {
    if Start(c, k) + c >= n then k + 1 else WindowsFrom(n, c, k + 1)
  }

  function Windows(n: nat, c: int): nat
    requires c >= 1
  {
    WindowsFrom(n, c, 0)
  }

  lemma {:induction false} LastFrom(n: nat, c: int, j: nat, k: nat)
    requires c >= 1 && j <= k < WindowsFrom(n, c, j) && Start(c, j) < n
    ensures Start(c, k) < n
    ensures Start(c, k) + c >= n <==> k == WindowsFrom(n, c, j) - 1
    decreases n - Start(c, j)
  {
    if Start(c, j) + c < n {
      assert Start(c, j + 1) == Start(c, j) + Step(c);
      if k > j {
        LastFrom(n, c, j + 1, k);
      }
    }
  }

  function Window(t: string, c: int, k: nat): (r: string)
    requires c >= 1 && Start(c, k) <= |t|
    ensures |r| <= c
  {
    t[Start(c, k)..Min(Start(c, k) + c, |t|)]
  }

  /** Window k reaches the end exactly when it is the last one. */
  lemma LastExactly(n: nat, c: int, k: nat)
    requires 1 <= c < n && k < Windows(n, c)
    ensures Start(c, k) < n
    ensures Start(c, k) + c >= n <==> k == Windows(n, c) - 1
  {
    LastFrom(n, c, 0, k);
  }

  lemma Cancel(a: int, b: int, step: int)
    requires step >= 1 && a * step < b * step
    ensures a < b
  {
    assert a < b || (a - b) * step >= 0;
    assert (a - b) * step == a * step - b * step;
  }

  lemma CeilingIs(x: int, step: int, q: int)
    requires step >= 1 && (q - 1) * step < x <= q * step
    ensures (x + step - 1) / step == q
  {
    var d, r := (x + step - 1) / step, (x + step - 1) % step;
    assert x + step - 1 == d * step + r;
    Cancel(q, d + 1, step);
    Cancel(d, q + 1, step);
  }

  /** The number of windows is the number of steps it takes to cover what the first window
      leaves over, rounded up, and one. */
  lemma WindowCount(n: nat, c: int)
    requires 1 <= c < n
    ensures Windows(n, c) == (n - c + Step(c) - 1) / Step(c) + 1
  {
    var q := Windows(n, c) - 1;
    LastExactly(n, c, 0);
    LastExactly(n, c, q);
    LastExactly(n, c, q - 1);
    StartIs(c, q);
    StartIs(c, q - 1);
    CeilingIs(n - c, Step(c), q);
  }

  /** The windows 0 to m - 1. */
  function FirstWindows(t: string, c: int, m: nat): (l: seq<string>)
    requires c >= 1 && (m > 0 ==> Start(c, m - 1) <= |t|)
    ensures |l| == m
  {
    if m == 0 then []
    else
      assert m > 1 ==> Start(c, m - 1) == Start(c, m - 2) + Step(c);
      FirstWindows(t, c, m - 1) + [Window(t, c, m - 1)]
  }

  lemma {:induction false} WindowAt(t: string, c: int, m: nat, k: nat)
    requires c >= 1 && k < m && Start(c, m - 1) <= |t|
    ensures Start(c, k) <= |t| && FirstWindows(t, c, m)[k] == Window(t, c, k)
  {
    if k < m - 1 {
      assert Start(c, m - 1) == Start(c, m - 2) + Step(c);
      WindowAt(t, c, m - 1, k);
    }
  }

  function AllWindows(t: string, c: int): seq<string>
    requires 1 <= c < |t|
  {
    LastExactly(|t|, c, Windows(|t|, c) - 1);
    FirstWindows(t, c, Windows(|t|, c))
  }

  function StripAll(l: seq<string>, ws: set<char>): (r: seq<string>)
    ensures |r| == |l|
  {
    if l == [] then [] else StripAll(l[..|l| - 1], ws) + [Strip(l[|l| - 1], ws)]
  }

  lemma StripSnoc(l: seq<string>, w: string, ws: set<char>)
    ensures StripAll(l + [w], ws) == StripAll(l, ws) + [Strip(w, ws)]
  {
    assert (l + [w])[..|l|] == l;
  }

  lemma {:induction false} StripAt(l: seq<string>, ws: set<char>, k: nat)
    requires k < |l|
    ensures StripAll(l, ws)[k] == Strip(l[k], ws)
  {
    if k < |l| - 1 {
      StripAt(l[..|l| - 1], ws, k);
    }
  }

  function NonEmpty(chunks: seq<string>): seq<string> {
    if chunks == [] then []
    else NonEmpty(chunks[..|chunks| - 1]) + if chunks[|chunks| - 1] == [] then [] else [chunks[|chunks| - 1]]
  }

  lemma {:induction false} NonEmptyKeeps(chunks: seq<string>, chunk: string)
    ensures chunk in NonEmpty(chunks) <==> chunk in chunks && chunk != []
  {
    if chunks != [] {
      NonEmptyKeeps(chunks[..|chunks| - 1], chunk);
      assert chunks == chunks[..|chunks| - 1] + [chunks[|chunks| - 1]];
    }
  }

  /** The chunks of a normalised text. */
  function ChunksOf(t: string, c: int, ws: set<char>): seq<string>
    requires c >= 1
  {
    if t == [] then [] else if |t| <= c then [t] else NonEmpty(StripAll(AllWindows(t, c), ws))
  }

  /** Window k, and whether it is the last. */
  lemma NextWindow(t: string, c: int, k: nat, end: nat)
    requires 1 <= c < |t| && k < Windows(|t|, c) && end == Min(Start(c, k) + c, |t|)
    requires k > 0 ==> Start(c, k - 1) <= |t|
    ensures Start(c, k) < end && FirstWindows(t, c, k) + [t[Start(c, k)..end]] == FirstWindows(t, c, k + 1)
    ensures Start(c, k + 1) == Start(c, k) + Step(c)
    ensures if end == |t| then k + 1 == Windows(|t|, c) else k + 1 < Windows(|t|, c) && Start(c, k + 1) < |t|
  {
    LastExactly(|t|, c, k);
    if end < |t| {
      LastExactly(|t|, c, k + 1);
    }
  }

  /** One turn of the loop: window k is stripped and appended. */
  method TakeWindow(t: string, c: int, ws: set<char>, start: nat, chunks: seq<string>, ghost k: nat)
    returns (end: nat, more: seq<string>)
    requires 1 <= c < |t| && k < Windows(|t|, c) && start == Start(c, k) <= |t|
    requires (k > 0 ==> Start(c, k - 1) <= |t|) && chunks == StripAll(FirstWindows(t, c, k), ws)
    ensures more == StripAll(FirstWindows(t, c, k + 1), ws)
    ensures start < end <= |t| && (end == |t| <==> k + 1 == Windows(|t|, c))
    ensures end < |t| ==> start + Step(c) == Start(c, k + 1) < |t|
  {
    end := Min(start + c, |t|);
    NextWindow(t, c, k, end);
    StripSnoc(FirstWindows(t, c, k), t[start..end], ws);
    more := chunks + [Strip(t[start..end], ws)];
  }

  /** The windows of a long text, stripped one by one. */
  method StripWindows(t: string, c: int, ws: set<char>) returns (chunks: seq<string>)
    requires 1 <= c < |t|
    ensures chunks == StripAll(AllWindows(t, c), ws)
  {
    var step := Step(c);
    var start := 0;
    ghost var k := 0;
    chunks := [];
    while start < |t|
      invariant k < Windows(|t|, c) && start == Start(c, k) < |t| && (k > 0 ==> Start(c, k - 1) <= |t|)
      invariant chunks == StripAll(FirstWindows(t, c, k), ws)
      decreases Windows(|t|, c) - k
    {
      var end;
      end, chunks := TakeWindow(t, c, ws, start, chunks, k);
      k := k + 1;
      if end >= |t| {
        break;
      }
      start := start + step;
    }
  }

  method WithoutEmpty(chunks: seq<string>) returns (kept: seq<string>)
    ensures kept == NonEmpty(chunks)
  {
    kept := [];
    for i := 0 to |chunks|
      invariant kept == NonEmpty(chunks[..i])
    {
      assert chunks[..i + 1][..i] == chunks[..i];
      if chunks[i] != "" {
        kept := kept + [chunks[i]];
      }
    }
    assert chunks[..|chunks|] == chunks;
  }

  method Cut(t: string, c: int, ws: set<char>) returns (chunks: seq<string>)
    requires c >= 1
    ensures chunks == ChunksOf(t, c, ws)
  {
    if t == "" {
      return [];
    }
    if |t| <= c {
      return [t];
    }
    chunks := StripWindows(t, c, ws);
    chunks := WithoutEmpty(chunks);
  }

  /** chunk_text. The loop makes exactly as many turns as there are windows. */
  method Chunk(content: string, c: int, ws: set<char>) returns (chunks: seq<string>)
    requires c >= 1
    ensures chunks == ChunksOf(Normalized(content, ws), c, ws)
  {
    var t := Normalized(content, ws);
    chunks := Cut(t, c, ws);
  }

  /** Consecutive windows share exactly c - Step(c) characters; only the last may be
      shorter than c, and it ends where the text ends. */
  lemma WindowsOverlap(t: string, c: int, k: nat)
    requires 1 <= c < |t| && k < Windows(|t|, c) - 1
    ensures Start(c, k + 1) == Start(c, k) + Step(c) < |t|
    ensures |Window(t, c, k)| == c
    ensures var shared := c - Step(c);
            shared <= |Window(t, c, k + 1)| && Window(t, c, k)[Step(c)..] == Window(t, c, k + 1)[..shared]
    ensures k + 1 == Windows(|t|, c) - 1 <==> Start(c, k + 1) + c >= |t|
  {
    LastExactly(|t|, c, k);
    LastExactly(|t|, c, k + 1);
    assert Start(c, k + 1) == Start(c, k) + Step(c);
    var shared := t[Start(c, k + 1)..Start(c, k) + c];
    assert Window(t, c, k)[Step(c)..] == shared;
    assert Window(t, c, k + 1)[..c - Step(c)] == shared;
  }

  /** The window that covers position i. */
  lemma {:induction false} Covered(n: nat, c: int, i: nat, k: nat) returns (w: nat)
    requires 1 <= c < n && i < n && k < Windows(n, c) && Start(c, k) <= i
    ensures w < Windows(n, c) && Start(c, w) <= i < Start(c, w) + c
    decreases Windows(n, c) - k
  {
    LastExactly(n, c, k);
    if i < Start(c, k) + c {
      return k;
    }
    assert Start(c, k + 1) == Start(c, k) + Step(c);
    w := Covered(n, c, i, k + 1);
  }

  /** Stripping a stretch keeps its ink. */
  lemma InkSurvives(window: string, i: nat, ws: set<char>) returns (a: nat, b: nat)
    requires i < |window| && window[i] !in ws
    ensures a <= i < b <= |window| && window[a..b] == Strip(window, ws)
  {
    a, b := StripWindow(window, ws);
  }

  lemma WindowPart(t: string, c: int, k: nat, a: nat, b: nat)
    requires c >= 1 && Start(c, k) <= |t| && a <= b <= |Window(t, c, k)|
    ensures Start(c, k) + b <= |t| && Window(t, c, k)[a..b] == t[Start(c, k) + a..Start(c, k) + b]
  {
    var start, w := Start(c, k), Window(t, c, k);
    assert forall i :: 0 <= i < |w| ==> w[i] == t[start + i];
    var left, right := w[a..b], t[start + a..start + b];
    assert |left| == |right| && forall i :: 0 <= i < |left| ==> left[i] == right[i];
  }

  lemma ChunkOfWindow(t: string, c: int, ws: set<char>, k: nat)
    requires 1 <= c < |t| && k < Windows(|t|, c)
    ensures Start(c, k) < |t|
    ensures Strip(Window(t, c, k), ws) != [] ==> Strip(Window(t, c, k), ws) in ChunksOf(t, c, ws)
  {
    LastExactly(|t|, c, k);
    var m := Windows(|t|, c);
    LastExactly(|t|, c, m - 1);
    WindowAt(t, c, m, k);
    StripAt(AllWindows(t, c), ws, k);
    NonEmptyKeeps(StripAll(AllWindows(t, c), ws), StripAll(AllWindows(t, c), ws)[k]);
  }

  lemma InWindow(t: string, c: int, ws: set<char>, k: nat, i: nat) returns (a: nat, b: nat)
    requires c >= 1 && Start(c, k) <= i < Start(c, k) + c && i < |t| && t[i] !in ws
    ensures a <= i < b <= |t| && t[a..b] == Strip(Window(t, c, k), ws)
  {
    var x, y := InkSurvives(Window(t, c, k), i - Start(c, k), ws);
    WindowPart(t, c, k, x, y);
    a, b := Start(c, k) + x, Start(c, k) + y;
  }

  /** Every character of the text that is not whitespace is in a returned chunk. */
  lemma NothingIsLost(t: string, c: int, ws: set<char>, i: nat) returns (a: nat, b: nat)
    requires c >= 1 && i < |t| && t[i] !in ws
    ensures a <= i < b <= |t| && t[a..b] in ChunksOf(t, c, ws)
  {
    if |t| <= c {
      assert t[0..|t|] == t;
      a, b := 0, |t|;
    } else {
      LastExactly(|t|, c, 0);
      var k := Covered(|t|, c, i, 0);
      ChunkOfWindow(t, c, ws, k);
      a, b := InWindow(t, c, ws, k, i);
    }
  }

  lemma WindowOfChunk(t: string, c: int, ws: set<char>, chunk: string) returns (k: nat)
    requires 1 <= c < |t| && chunk in ChunksOf(t, c, ws)
    ensures Start(c, k) <= |t| && chunk == Strip(Window(t, c, k), ws) && chunk != []
  {
    var m := Windows(|t|, c);
    LastExactly(|t|, c, m - 1);
    var all := StripAll(AllWindows(t, c), ws);
    NonEmptyKeeps(all, chunk);
    k :| 0 <= k < m && all[k] == chunk;
    WindowAt(t, c, m, k);
    StripAt(AllWindows(t, c), ws, k);
  }

  lemma StretchOfWindow(t: string, c: int, ws: set<char>, k: nat) returns (a: nat, b: nat)
    requires c >= 1 && Start(c, k) <= |t|
    ensures a <= b <= |t| && b - a <= c && Strip(Window(t, c, k), ws) == t[a..b]
  {
    var x, y := StripWindow(Window(t, c, k), ws);
    WindowPart(t, c, k, x, y);
    a, b := Start(c, k) + x, Start(c, k) + y;
  }

  /** Every returned chunk is a non-empty stretch of the text, at most c long. */
  lemma ChunksFit(t: string, c: int, ws: set<char>, chunk: string) returns (a: nat, b: nat)
    requires c >= 1 && chunk in ChunksOf(t, c, ws)
    ensures 0 < |chunk| <= c
    ensures a < b <= |t| && chunk == t[a..b]
  {
    if |t| <= c {
      a, b := 0, |t|;
    } else {
      var k := WindowOfChunk(t, c, ws, chunk);
      a, b := StretchOfWindow(t, c, ws, k);
    }
  }

  /** How many of the strings are not empty. */
  function Count(l: seq<string>): nat {
    if l == [] then 0 else Count(l[..|l| - 1]) + if l[|l| - 1] == [] then 0 else 1
  }

  lemma {:induction false} CountIs(l: seq<string>)
    ensures |NonEmpty(l)| == Count(l)
  {
    if l != [] {
      CountIs(l[..|l| - 1]);
    }
  }

  /** A string that is not empty is kept behind those before it. */
  lemma {:induction false} KeptAt(l: seq<string>, k: nat)
    requires k < |l| && l[k] != []
    ensures Count(l[..k]) < |NonEmpty(l)| && NonEmpty(l)[Count(l[..k])] == l[k]
  {
    var n := |l| - 1;
    CountIs(l[..n]);
    if k < n {
      KeptAt(l[..n], k);
      assert l[..n][..k] == l[..k];
    }
  }

  /** The stretch of c characters from position k * step on, where a step is the chunk size
      less an overlap of 40 characters, and at least one. */
  function Stretch(t: string, c: int, k: nat): string
    requires c >= 1
  {
    var at := k * Max(c - 40, 1);
    if at >= |t| then [] else t[at..Min(at + c, |t|)]
  }

  /** Stretch k reaches the end of the text. */
  predicate ReachesEnd(t: string, c: int, k: nat) {
    k * Max(c - 40, 1) + c >= |t|
  }

  lemma AtStretch(t: string, c: int, k: nat)
    requires c >= 1 && Start(c, k) < |t|
    ensures Stretch(t, c, k) == Window(t, c, k) && (ReachesEnd(t, c, k) <==> Start(c, k) + c >= |t|)
  {
    StartIs(c, k);
  }

  lemma StretchIs(t: string, c: int, ws: set<char>, k: nat)
    requires 1 <= c < |t| && k < Windows(|t|, c)
    ensures StripAll(AllWindows(t, c), ws)[k] == Strip(Stretch(t, c, k), ws)
    ensures ReachesEnd(t, c, k) <==> k == Windows(|t|, c) - 1
  {
    var m := Windows(|t|, c);
    LastExactly(|t|, c, m - 1);
    LastExactly(|t|, c, k);
    AtStretch(t, c, k);
    WindowAt(t, c, m, k);
    StripAt(AllWindows(t, c), ws, k);
  }

  /** Stretches 0 to m - 1, stripped. */
  function Stretches(t: string, c: int, ws: set<char>, m: nat): seq<string>
    requires c >= 1
  {
    seq(m, k requires 0 <= k < m => Strip(Stretch(t, c, k), ws))
  }

  /** A long text is cut into the stretches up to the first that reaches its end; they are
      stripped, and those that are not blank are the chunks, in order. */
  lemma ChunksAreStretches(t: string, c: int, ws: set<char>) returns (m: nat)
    requires 1 <= c < |t|
    ensures m > 0 && forall k :: 0 <= k < m ==> (ReachesEnd(t, c, k) <==> k == m - 1)
    ensures |ChunksOf(t, c, ws)| == Count(Stretches(t, c, ws, m))
    ensures forall k :: 0 <= k < m && Stretches(t, c, ws, m)[k] != [] ==>
      var before := Count(Stretches(t, c, ws, m)[..k]);
      before < |ChunksOf(t, c, ws)| && ChunksOf(t, c, ws)[before] == Stretches(t, c, ws, m)[k]
  {
    m := Windows(|t|, c);
    var all := StripAll(AllWindows(t, c), ws);
    forall k | 0 <= k < m
      ensures all[k] == Stretches(t, c, ws, m)[k] && (ReachesEnd(t, c, k) <==> k == m - 1)
    {
      StretchIs(t, c, ws, k);
    }
    assert all == Stretches(t, c, ws, m);
    CountIs(all);
    forall k | 0 <= k < m && all[k] != []
      ensures Count(all[..k]) < |NonEmpty(all)| && NonEmpty(all)[Count(all[..k])] == all[k]
    {
      KeptAt(all, k);
    }
  }
}

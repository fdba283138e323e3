/** Splitting a long reply into channel-sized pieces
    (src/wecom_ai_gateway/services.py, _split_reply). */
module SplitReply {
  import opened Text

  const BREAKS: set<char> := {'。', '！', '？', '；', '，', '.', '!', '?', ';', ','}

  /** str.rfind over the first `limit` characters, for any character of a set; -1 when absent. */
  function LastOf(s: string, cs: set<char>, limit: nat): (i: int)
    requires limit <= |s|
    ensures -1 <= i < limit
    ensures i >= 0 ==> s[i] in cs
    ensures forall k :: i < k < limit ==> s[k] !in cs
  {
    if limit == 0 then -1
    else if s[limit - 1] in cs then limit - 1
    else LastOf(s, cs, limit - 1)
  }

  /** How much of an over-long rest the next piece is cut from. It is more than half the
      limit, and it ends at a newline if the second half has one, else at a sentence
      break if the second half has one, else at the limit. */
  function CutLength(rest: string, limit: nat): (n: nat)
    requires 1 <= limit < |rest|
    ensures n <= limit < 2 * n
    ensures n < limit ==> rest[n - 1] == '\n' || rest[n - 1] in BREAKS
    ensures forall k :: limit / 2 < k < limit && rest[k] == '\n' ==> k < n && rest[n - 1] == '\n'
    ensures rest[n - 1] != '\n' ==>
      forall k :: limit / 2 < k < limit && rest[k] in BREAKS ==> k < n && rest[n - 1] in BREAKS
  {
    var newline := LastOf(rest, {'\n'}, limit);
    if newline > limit / 2 then newline + 1
    else
      var mark := LastOf(rest, BREAKS, limit);
      if mark > limit / 2 then mark + 1 else limit
  }

  /** A cut after n characters is where the reader would want it: behind the last newline of the
      window's second half; without one there, behind its last sentence mark; and without
      either, at the limit. */
  ghost predicate GoodCut(rest: string, limit: nat, n: nat)
    requires 1 <= limit < |rest|
  {
    && 1 <= n <= limit
    && if exists k :: limit / 2 < k < limit && rest[k] == '\n' then
         limit / 2 < n - 1 && rest[n - 1] == '\n' && forall k :: n <= k < limit ==> rest[k] != '\n'
       else if exists k :: limit / 2 < k < limit && rest[k] in "。！？；，.!?;," then
         limit / 2 < n - 1 && rest[n - 1] in "。！？；，.!?;," && forall k :: n <= k < limit ==> rest[k] !in BREAKS
       else n == limit
  }

  lemma MarksAreBreaks(c: char)
    ensures c in "。！？；，.!?;," <==> c in BREAKS
  {
  }

  lemma CutIsGood(rest: string, limit: nat)
    requires 1 <= limit < |rest|
    ensures GoodCut(rest, limit, CutLength(rest, limit))
  {
    var n := CutLength(rest, limit);
    var newline, mark := LastOf(rest, {'\n'}, limit), LastOf(rest, BREAKS, limit);
    forall c: char ensures c in "。！？；，.!?;," <==> c in BREAKS {
      MarksAreBreaks(c);
    }
    if newline > limit / 2 {
      assert rest[newline] == '\n';
    } else if mark > limit / 2 {
      assert rest[mark] in BREAKS;
    }
  }

  function NextPiece(rest: string, limit: nat, ws: set<char>): string
    requires 1 <= limit < |rest|
  {
    Strip(rest[..CutLength(rest, limit)], ws)
  }

  function AfterPiece(rest: string, limit: nat, ws: set<char>): (tail: string)
    requires 1 <= limit < |rest|
    ensures |tail| < |rest|
  {
    var piece := NextPiece(rest, limit, ws);
    if piece != [] then
      assert |piece| <= |rest| by { var _, _ := StripWindow(rest[..CutLength(rest, limit)], ws); }
      LStrip(rest[|piece|..], ws)
    else rest[limit..]
  }

  function Keep(piece: string): seq<string> {
    if piece == [] then [] else [piece]
  }

  function Pieces(rest: string, limit: nat, ws: set<char>): seq<string>
    requires limit >= 1
    decreases |rest|
  {
    if |rest| <= limit then Keep(Strip(rest, ws))
    else Keep(NextPiece(rest, limit, ws)) + Pieces(AfterPiece(rest, limit, ws), limit, ws)
  }

  function Split(text: string, limit: nat, ws: set<char>): seq<string>
    requires limit >= 1
  {
    if |text| <= limit then Keep(text) else Pieces(text, limit, ws)
  }

  /** One round of the loop: the next piece and what is left of the text. */
  method TakePiece(rest: string, limit: nat, ws: set<char>) returns (chunk: string, tail: string)
    requires 1 <= limit < |rest|
    ensures chunk == NextPiece(rest, limit, ws) && tail == AfterPiece(rest, limit, ws)
  {
    var cut := LastOf(rest, {'\n'}, limit);
    if cut <= limit / 2 {
      cut := LastOf(rest, BREAKS, limit);
      if cut <= limit / 2 {
        cut := limit;
      }
    }
    var window := if cut < limit then rest[..cut + 1] else rest[..limit];
    assert window == rest[..CutLength(rest, limit)];
    ghost var _, _ := StripWindow(window, ws);
    chunk := Strip(window, ws);
    tail := if chunk != [] then LStrip(rest[|chunk|..], ws) else rest[limit..];
  }

  lemma PiecesStep(done: seq<string>, rest: string, limit: nat, ws: set<char>)
    requires 1 <= limit < |rest|
    ensures done + Pieces(rest, limit, ws)
         == (done + Keep(NextPiece(rest, limit, ws))) + Pieces(AfterPiece(rest, limit, ws), limit, ws)
    ensures |AfterPiece(rest, limit, ws)| < |rest|
  {
  }

  lemma PiecesEnd(rest: string, limit: nat, ws: set<char>)
    requires |rest| <= limit && 1 <= limit
    ensures Pieces(rest, limit, ws) == if rest == [] then [] else Keep(Strip(rest, ws))
  {
  }

  method SplitText(text: string, limit: nat, ws: set<char>) returns (chunks: seq<string>)
    requires limit >= 1
    ensures chunks == Split(text, limit, ws)
  {
    if text == [] {
      return [];
    }
    if |text| <= limit {
      return [text];
    }
    chunks := [];
    var rest := text;
    while |rest| > limit
      invariant Pieces(text, limit, ws) == chunks + Pieces(rest, limit, ws)
      decreases |rest|
    {
      PiecesStep(chunks, rest, limit, ws);
      var chunk, tail := TakePiece(rest, limit, ws);
      chunks, rest := chunks + Keep(chunk), tail;
      if rest == [] {
        break;
      }
    }
    PiecesEnd(rest, limit, ws);
    if rest != [] {
      chunks := chunks + Keep(Strip(rest, ws));
    }
  }

  /** The text of one outgoing reply, as the sender sees it. */
  function ReplyChunks(answer: string, limit: nat, ws: set<char>): seq<string>
    requires limit >= 1
  {
    if |answer| > limit then Split(answer, limit, ws) else [answer]
  }

  /** piece, gap, piece, gap, ..., piece */
  function Weave(pieces: seq<string>, gaps: seq<string>): string
    requires |pieces| == |gaps| + 1
  {
    if gaps == [] then pieces[0]
    else pieces[0] + gaps[0] + Weave(pieces[1..], gaps[1..])
  }

  ghost predicate JoinedBy(text: string, pieces: seq<string>, gaps: seq<string>, ws: set<char>) {
    && |pieces| == |gaps| + 1
    && (forall i :: 0 <= i < |gaps| ==> Blank(gaps[i], ws))
    && Weave(pieces, gaps) == text
  }

  /** The pieces, in order and with only whitespace between them, are exactly the text. */
  ghost predicate Rejoins(text: string, pieces: seq<string>, ws: set<char>) {
    exists gaps: seq<string> :: JoinedBy(text, pieces, gaps, ws)
  }

  lemma StripPrefix(rest: string, n: nat, ws: set<char>) returns (b: nat)
    requires 1 <= n <= |rest| && rest[0] !in ws
    ensures 1 <= b <= n && Strip(rest[..n], ws) == rest[..b]
    ensures forall i :: b <= i < n ==> rest[i] in ws
  {
    var head := rest[..n];
    assert head[0] == rest[0];
    var a, m := StripWindow(head, ws);
    assert a == 0;
    assert m > 0;
    b := m;
    assert head[0..b] == rest[..b];
    forall i | b <= i < n
      ensures rest[i] in ws
    {
      assert rest[i] == head[i];
    }
  }

  /** Whitespace trimmed off the piece is skipped over by the rest, and no more than it. */
  lemma GapReaches(rest: string, b: nat, n: nat, ws: set<char>) returns (next: nat)
    requires b <= n < |rest| && Trimmed(rest, ws)
    requires forall i :: b <= i < n ==> rest[i] in ws
    ensures n <= next < |rest| && LStrip(rest[b..], ws) == rest[next..]
    ensures forall i :: b <= i < next ==> rest[i] in ws
    ensures Trimmed(rest[next..], ws)
  {
    var after := rest[b..];
    var lead := Lead(after, ws);
    forall j | 0 <= j < n - b
      ensures after[j] in ws
    {
      assert after[j] == rest[b + j];
    }
    assert after[|after| - 1] == rest[|rest| - 1];
    next := b + lead;
    assert after[lead..] == rest[next..];
    forall i | b <= i < next
      ensures rest[i] in ws
    {
      assert rest[i] == after[i - b];
    }
  }

  /** One round of the loop on text without outer whitespace: a piece of b characters,
      a whitespace gap, and a rest that again has no outer whitespace. */
  lemma CutStep(rest: string, limit: nat, ws: set<char>) returns (b: nat, next: nat)
    requires 1 <= limit < |rest| && Trimmed(rest, ws)
    ensures 1 <= b <= next < |rest| && limit < 2 * next
    ensures NextPiece(rest, limit, ws) == rest[..b] && AfterPiece(rest, limit, ws) == rest[next..]
    ensures forall i :: b <= i < next ==> rest[i] in ws
    ensures Trimmed(rest[next..], ws)
  {
    var n := CutLength(rest, limit);
    b := StripPrefix(rest, n, ws);
    next := GapReaches(rest, b, n, ws);
  }

  lemma WeaveMore(piece: string, gap: string, later: seq<string>, gaps: seq<string>, ws: set<char>)
    requires Blank(gap, ws) && |later| == |gaps| + 1
    requires JoinedBy(Weave(later, gaps), later, gaps, ws)
    ensures Rejoins(piece + gap + Weave(later, gaps), [piece] + later, ws)
  {
    var ps, gs := [piece] + later, [gap] + gaps;
    assert ps[1..] == later && gs[1..] == gaps;
    assert JoinedBy(piece + gap + Weave(later, gaps), ps, gs, ws);
  }

  lemma JoinOne(rest: string, b: nat, next: nat, later: seq<string>, ws: set<char>)
    requires b <= next <= |rest| && Rejoins(rest[next..], later, ws)
    requires forall i :: b <= i < next ==> rest[i] in ws
    ensures Rejoins(rest, [rest[..b]] + later, ws)
  {
    var gaps :| JoinedBy(rest[next..], later, gaps, ws);
    WeaveMore(rest[..b], rest[b..next], later, gaps, ws);
    assert rest[..b] + rest[b..next] + rest[next..] == rest;
  }

  lemma {:induction false} PiecesRejoin(rest: string, limit: nat, ws: set<char>)
    requires limit >= 1 && rest != [] && Trimmed(rest, ws)
    ensures Rejoins(rest, Pieces(rest, limit, ws), ws)
    decreases |rest|
  {
    if |rest| <= limit {
      StripTrimmed(rest, ws);
      assert Pieces(rest, limit, ws) == [rest];
      var none: seq<string> := [];
      assert JoinedBy(rest, [rest], none, ws);
    } else {
      var b, next := CutStep(rest, limit, ws);
      PiecesRejoin(rest[next..], limit, ws);
      JoinOne(rest, b, next, Pieces(rest[next..], limit, ws), ws);
      assert Pieces(rest, limit, ws) == [rest[..b]] + Pieces(rest[next..], limit, ws);
    }
  }

  /** The pieces come from good cuts, one after the other: each is what stands before its cut,
      stripped, and the next cut is made in what follows it. */
  ghost predicate WellCut(rest: string, pieces: seq<string>, limit: nat, ws: set<char>)
    requires limit >= 1
    decreases |rest|
  {
    if |rest| <= limit then pieces == [rest]
    else
      && pieces != [] && 1 <= |pieces[0]| <= |rest|
      && (exists n :: 0 <= n <= limit && GoodCut(rest, limit, n) && pieces[0] == Strip(rest[..n], ws))
      && WellCut(LStrip(rest[|pieces[0]|..], ws), pieces[1..], limit, ws)
  }

  lemma {:induction false} PiecesWellCut(rest: string, limit: nat, ws: set<char>)
    requires limit >= 1 && rest != [] && Trimmed(rest, ws)
    ensures WellCut(rest, Pieces(rest, limit, ws), limit, ws)
    decreases |rest|
  {
    StripTrimmed(rest, ws);
    if |rest| > limit {
      var b, next := CutStep(rest, limit, ws);
      CutIsGood(rest, limit);
      PiecesWellCut(rest[next..], limit, ws);
      var pieces := Pieces(rest, limit, ws);
      assert pieces == [rest[..b]] + Pieces(rest[next..], limit, ws);
      assert pieces[1..] == Pieces(rest[next..], limit, ws);
      assert LStrip(rest[b..], ws) == rest[next..];
    }
  }

  /** Half a limit per cut: the bound in the shape the induction carries. */
  predicate FewCuts(pieces: nat, limit: nat, length: nat) {
    pieces >= 1 && (pieces - 1) * limit < 2 * length
  }

  lemma OneMoreCut(later: nat, limit: nat, tail: nat, whole: nat)
    requires FewCuts(later, limit, tail) && limit < 2 * (whole - tail)
    ensures FewCuts(later + 1, limit, whole)
  {
    assert later * limit == (later - 1) * limit + limit;
  }

  lemma {:induction false} PiecesCount(rest: string, limit: nat, ws: set<char>)
    requires limit >= 1 && rest != [] && Trimmed(rest, ws)
    ensures FewCuts(|Pieces(rest, limit, ws)|, limit, |rest|)
    decreases |rest|
  {
    if |rest| <= limit {
      StripTrimmed(rest, ws);
      assert |Pieces(rest, limit, ws)| == 1;
    } else {
      var b, next := CutStep(rest, limit, ws);
      PiecesCount(rest[next..], limit, ws);
      assert |Pieces(rest, limit, ws)| == 1 + |Pieces(rest[next..], limit, ws)|;
      OneMoreCut(|Pieces(rest[next..], limit, ws)|, limit, |rest| - next, |rest|);
    }
  }

  lemma {:induction false} PiecesFit(rest: string, limit: nat, ws: set<char>)
    requires limit >= 1
    ensures forall p :: p in Pieces(rest, limit, ws) ==> 1 <= |p| <= limit
    decreases |rest|
  {
    if |rest| <= limit {
      var a, b := StripWindow(rest, ws);
    } else {
      var a, b := StripWindow(rest[..CutLength(rest, limit)], ws);
      PiecesFit(AfterPiece(rest, limit, ws), limit, ws);
    }
  }

  /** A stripped reply is cut into non-empty pieces within the limit, nothing lost,
      nothing repeated, only whitespace dropped at the cuts, and fewer than
      2 * length / limit cuts. */
  lemma SplitIsFaithful(text: string, limit: nat, ws: set<char>)
    requires limit >= 1 && text != [] && Trimmed(text, ws)
    ensures Rejoins(text, Split(text, limit, ws), ws)
    ensures forall p :: p in Split(text, limit, ws) ==> 1 <= |p| <= limit
    ensures (|Split(text, limit, ws)| - 1) * limit < 2 * |text|
    ensures Split(text, limit, ws) == ReplyChunks(text, limit, ws)
  {
    PiecesRejoin(text, limit, ws);
    PiecesCount(text, limit, ws);
    PiecesFit(text, limit, ws);
    StripTrimmed(text, ws);
    assert Split(text, limit, ws) == Pieces(text, limit, ws);
  }

  /** And every cut is a good one. */
  lemma SplitCutsWell(text: string, limit: nat, ws: set<char>)
    requires limit >= 1 && text != [] && Trimmed(text, ws)
    ensures WellCut(text, Split(text, limit, ws), limit, ws)
  {
    if |text| > limit {
      PiecesWellCut(text, limit, ws);
    }
  }

  /** Stripping the reply first is necessary: with a leading space the cut is measured on
      the stripped piece but taken off the unstripped text, and a character is repeated. */
  lemma UnstrippedTextRepeats()
    ensures Split(" ab", 2, {' '}) == ["a", "ab"]
  {
    var t, ws := " ab", {' '};
    assert CutLength(t, 2) == 2 && t[..2] == " a";
    assert RStrip(" a", ws) == " a";
    assert Lead(" a", ws) == LeadFrom(" a", ws, 0) == LeadFrom(" a", ws, 1) == 1;
    assert NextPiece(t, 2, ws) == "a";
    assert t[1..] == "ab" && LStrip("ab", ws) == "ab";
    StripTrimmed("ab", ws);
  }
}

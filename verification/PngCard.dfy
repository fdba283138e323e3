/** Finding a character card in a PNG file (src/wecom_ai_gateway/cards.py
    extract_card_from_png). The chunk layout is that of section 5.3 of the W3C PNG
    specification: length, type, data, CRC. */
module PngCard {
  import opened Basics

  newtype Byte = b: int | 0 <= b < 256

  const SIGNATURE: seq<Byte> := [137, 80, 78, 71, 13, 10, 26, 10]
  const TEXT: seq<Byte> := [116, 69, 88, 116]
  const ITEXT: seq<Byte> := [105, 84, 88, 116]
  const CHARA: seq<Byte> := [99, 104, 97, 114, 97]
  const CCV3: seq<Byte> := [99, 99, 118, 51]
  const LENGTHS := 0x1_0000_0000

  datatype Chunk = Chunk(kind: seq<Byte>, data: seq<Byte>)

  /** UTF-8 decoding with replacement, and zlib, which may fail. */
  datatype Env = Env(decode: seq<Byte> -> string, inflate: seq<Byte> -> Option<seq<Byte>>)

  /** What one chunk means for the search: it is passed over, or it settles it. */
  datatype Finding = Skip | Settled(card: Option<string>)

  // ----------------------------------------------------------------- the structure

  function FirstZero(s: seq<Byte>): (z: nat)
    ensures z <= |s|
  {
    if s == [] || s[0] == 0 then 0 else 1 + FirstZero(s[1..])
  }

  lemma {:induction false} FirstZeroIsFirst(s: seq<Byte>)
    ensures forall i :: 0 <= i < FirstZero(s) ==> s[i] != 0
    ensures FirstZero(s) < |s| ==> s[FirstZero(s)] == 0
  {
    if s != [] && s[0] != 0 {
      FirstZeroIsFirst(s[1..]);
    }
  }

  /** The text of an iTXt chunk after its keyword: compression flag and method, then the
      language tag, the translated keyword and the text, each ended by a zero. */
  function International(text: seq<Byte>, env: Env): Option<string> {
    if |text| < 2 then None
    else
      var tagged := text[2..];
      if FirstZero(tagged) == |tagged| then None
      else
        var translated := tagged[FirstZero(tagged) + 1..];
        if FirstZero(translated) == |translated| then None
        else
          var body := translated[FirstZero(translated) + 1..];
          if text[0] != 1 then Some(env.decode(body))
          else
            var plain := env.inflate(body);
            if plain == None then None else Some(env.decode(plain.value))
  }

  function FindingOf(c: Chunk, env: Env): Finding {
    var z := FirstZero(c.data);
    if (c.kind != TEXT && c.kind != ITEXT) || z == |c.data| then Skip
    else if c.data[..z] != CHARA && c.data[..z] != CCV3 then Skip
    else if c.kind == TEXT then Settled(Some(env.decode(c.data[z + 1..])))
    else Settled(International(c.data[z + 1..], env))
  }

  /** The first chara or ccv3 text chunk decides. */
  function CardOf(chunks: seq<Chunk>, env: Env): Option<string> {
    if chunks == [] then None
    else match FindingOf(chunks[0], env)
      case Skip => CardOf(chunks[1..], env)
      case Settled(card) => card
  }

  predicate ZeroFree(s: seq<Byte>) {
    forall i :: 0 <= i < |s| ==> s[i] != 0
  }

  /** The first zero splits a text in exactly one way. */
  lemma {:induction false} SplitAtZero(a: seq<Byte>, rest: seq<Byte>)
    requires ZeroFree(a)
    ensures var s := a + [0] + rest;
            FirstZero(s) == |a| < |s| && s[..FirstZero(s)] == a && s[FirstZero(s) + 1..] == rest
  {
    var s := a + [0] + rest;
    if a != [] {
      SplitAtZero(a[1..], rest);
      assert s[1..] == a[1..] + [0] + rest;
    }
  }

  lemma Around(s: seq<Byte>, z: nat)
    requires z < |s|
    ensures s == s[..z] + [s[z]] + s[z + 1..]
  {
  }

  lemma JoinAtZero(s: seq<Byte>, z: nat)
    requires z == FirstZero(s) < |s|
    ensures ZeroFree(s[..z]) && s == s[..z] + [0] + s[z + 1..]
  {
    FirstZeroIsFirst(s);
    Around(s, z);
  }

  /** What follows the keyword of an iTXt chunk. */
  function Layout(flag: Byte, how: Byte, tag: seq<Byte>, translated: seq<Byte>, body: seq<Byte>): seq<Byte> {
    [flag, how] + (tag + [0] + (translated + [0] + body))
  }

  function Unpacked(flag: Byte, body: seq<Byte>, env: Env): Option<string> {
    if flag != 1 then Some(env.decode(body))
    else if env.inflate(body) == None then None
    else Some(env.decode(env.inflate(body).value))
  }

  /** Reading a laid-out text gives its body, whatever the compression method, tag and translation. */
  lemma InternationalReads(flag: Byte, how: Byte, tag: seq<Byte>, translated: seq<Byte>, body: seq<Byte>, env: Env)
    requires ZeroFree(tag) && ZeroFree(translated)
    ensures International(Layout(flag, how, tag, translated, body), env) == Unpacked(flag, body, env)
  {
    SplitAtZero(tag, translated + [0] + body);
    SplitAtZero(translated, body);
    assert Layout(flag, how, tag, translated, body)[2..] == tag + [0] + (translated + [0] + body);
  }

  ghost predicate LaidOut(text: seq<Byte>, env: Env, card: string) {
    exists flag: Byte, how: Byte, tag, translated, body {:trigger Layout(flag, how, tag, translated, body)} ::
      && text == Layout(flag, how, tag, translated, body) && ZeroFree(tag) && ZeroFree(translated)
      && Unpacked(flag, body, env) == Some(card)
  }

  lemma WriteLayout(text: seq<Byte>, tag: seq<Byte>, translated: seq<Byte>, body: seq<Byte>)
    requires |text| >= 2 && text[2..] == tag + [0] + (translated + [0] + body)
    ensures text == Layout(text[0], text[1], tag, translated, body)
  {
    assert text == [text[0], text[1]] + text[2..];
  }

  lemma FindLayout(text: seq<Byte>, env: Env, card: string)
    requires International(text, env) == Some(card)
    ensures LaidOut(text, env, card)
  {
    var tagged := text[2..];
    var t := FirstZero(tagged);
    JoinAtZero(tagged, t);
    var translated := tagged[t + 1..];
    var u := FirstZero(translated);
    JoinAtZero(translated, u);
    WriteLayout(text, tagged[..t], translated[..u], translated[u + 1..]);
  }

  /** A card is read from an iTXt text exactly when the text is laid out with that card. */
  lemma InternationalExactly(text: seq<Byte>, env: Env, card: string)
    ensures International(text, env) == Some(card) <==> LaidOut(text, env, card)
  {
    if LaidOut(text, env, card) {
      var flag: Byte, how: Byte, tag, translated, body :|
        && text == Layout(flag, how, tag, translated, body) && ZeroFree(tag) && ZeroFree(translated)
        && Unpacked(flag, body, env) == Some(card);
      InternationalReads(flag, how, tag, translated, body, env);
    } else if International(text, env) == Some(card) {
      FindLayout(text, env, card);
    }
  }

  predicate Keyed(c: Chunk) {
    CHARA + [0] <= c.data || CCV3 + [0] <= c.data
  }

  /** A chunk settles the search exactly when it is a text chunk under one of the keywords. */
  lemma SettlesExactly(c: Chunk, env: Env)
    ensures FindingOf(c, env).Settled? <==> (c.kind == TEXT || c.kind == ITEXT) && Keyed(c)
  {
    if CHARA + [0] <= c.data {
      SplitAtZero(CHARA, c.data[|CHARA| + 1..]);
      assert c.data == CHARA + [0] + c.data[|CHARA| + 1..];
    } else if CCV3 + [0] <= c.data {
      SplitAtZero(CCV3, c.data[|CCV3| + 1..]);
      assert c.data == CCV3 + [0] + c.data[|CCV3| + 1..];
    } else if FirstZero(c.data) < |c.data| {
      JoinAtZero(c.data, FirstZero(c.data));
      assert c.data[..FirstZero(c.data)] + [0] <= c.data;
    }
  }

  function TextChunk(keyword: seq<Byte>, text: seq<Byte>): Chunk {
    Chunk(TEXT, keyword + [0] + text)
  }

  function InternationalChunk(keyword: seq<Byte>, flag: Byte, how: Byte, tag: seq<Byte>, translated: seq<Byte>,
                              body: seq<Byte>): Chunk {
    Chunk(ITEXT, keyword + [0] + Layout(flag, how, tag, translated, body))
  }

  /** An iTXt chunk under a keyword is read by its layout. */
  lemma InternationalSettles(keyword: seq<Byte>, flag: Byte, how: Byte, tag: seq<Byte>, translated: seq<Byte>,
                             body: seq<Byte>, env: Env)
    requires keyword in {CHARA, CCV3} && ZeroFree(tag) && ZeroFree(translated)
    ensures FindingOf(InternationalChunk(keyword, flag, how, tag, translated, body), env)
         == Settled(Unpacked(flag, body, env))
  {
    SplitAtZero(keyword, Layout(flag, how, tag, translated, body));
    InternationalReads(flag, how, tag, translated, body, env);
  }

  /** What is under no keyword is passed over, so a list of such chunks has no card. */
  lemma {:induction false} NoKeywordNoCard(chunks: seq<Chunk>, env: Env)
    requires forall c :: c in chunks ==> (c.kind != TEXT && c.kind != ITEXT) || !Keyed(c)
    ensures CardOf(chunks, env) == None
  {
    if chunks != [] {
      SettlesExactly(chunks[0], env);
      NoKeywordNoCard(chunks[1..], env);
    }
  }

  /** The first chunk that settles the search gives the card, whatever stands around it. */
  lemma {:induction false} FirstDecides(before: seq<Chunk>, c: Chunk, after: seq<Chunk>, env: Env)
    requires forall b :: b in before ==> (b.kind != TEXT && b.kind != ITEXT) || !Keyed(b)
    requires FindingOf(c, env).Settled?
    ensures CardOf(before + [c] + after, env) == FindingOf(c, env).card
    decreases |before|
  {
    var all := before + [c] + after;
    if before != [] {
      SettlesExactly(before[0], env);
      FirstDecides(before[1..], c, after, env);
      assert all[1..] == before[1..] + [c] + after;
    }
  }

  /** Chunks before the first one under a keyword are passed over, whatever they hold, and
      nothing after it matters. */
  lemma FirstTextDecides(before: seq<Chunk>, keyword: seq<Byte>, text: seq<Byte>, after: seq<Chunk>, env: Env)
    requires keyword in {CHARA, CCV3}
    requires forall c :: c in before ==> (c.kind != TEXT && c.kind != ITEXT) || !Keyed(c)
    ensures CardOf(before + [TextChunk(keyword, text)] + after, env) == Some(env.decode(text))
  {
    SplitAtZero(keyword, text);
    FirstDecides(before, TextChunk(keyword, text), after, env);
  }

  // ----------------------------------------------------------------------- the bytes

  function Number(b: seq<Byte>): (n: int)
    requires |b| == 4
    ensures 0 <= n < LENGTHS
  {
    ((b[0] as int * 256 + b[1] as int) * 256 + b[2] as int) * 256 + b[3] as int
  }

  function Digits(n: int): (b: seq<Byte>)
    requires 0 <= n < LENGTHS
    ensures |b| == 4
  {
    var high := n / 0x1_0000;
    var low := n % 0x1_0000;
    [(high / 256) as Byte, (high % 256) as Byte, (low / 256) as Byte, (low % 256) as Byte]
  }

  lemma NumberOfDigits(n: int)
    requires 0 <= n < LENGTHS
    ensures Number(Digits(n)) == n
  {
    var high := n / 0x1_0000;
    var low := n % 0x1_0000;
    assert n == high * 0x1_0000 + low;
  }

  /** The chunk at pos: its type and its data. */
  function ChunkFrom(data: seq<Byte>, pos: nat): Chunk
    requires pos + 12 <= |data| && pos + 8 + Number(data[pos..pos + 4]) <= |data|
  {
    Chunk(data[pos + 4..pos + 8], data[pos + 8..pos + 8 + Number(data[pos..pos + 4])])
  }

  /** The chunks that can be read from pos on: all but a last one whose data runs past the
      end. The CRC is neither checked nor, for the last chunk, required to be complete. */
  function ReadChunks(data: seq<Byte>, pos: nat): seq<Chunk>
    decreases |data| - pos
  {
    if pos + 12 > |data| then []
    else
      var length := Number(data[pos..pos + 4]);
      if pos + 8 + length > |data| then []
      else [ChunkFrom(data, pos)] + ReadChunks(data, pos + 12 + length)
  }

  lemma NoChunk(data: seq<Byte>, pos: nat, env: Env)
    requires pos + 12 > |data| || pos + 8 + Number(data[pos..pos + 4]) > |data|
    ensures CardOf(ReadChunks(data, pos), env) == None
  {
  }

  lemma NextChunk(data: seq<Byte>, pos: nat, env: Env, c: Chunk, finding: Finding)
    requires pos + 12 <= |data| && pos + 8 + Number(data[pos..pos + 4]) <= |data|
    requires c == ChunkFrom(data, pos)
    requires finding == FindingOf(c, env)
    ensures CardOf(ReadChunks(data, pos), env) ==
            if finding.Settled? then finding.card
            else CardOf(ReadChunks(data, pos + 12 + Number(data[pos..pos + 4])), env)
  {
    var rest := ReadChunks(data, pos + 12 + Number(data[pos..pos + 4]));
    assert ReadChunks(data, pos) == [c] + rest;
    assert ([c] + rest)[1..] == rest;
  }

  method ReadInternational(text: seq<Byte>, env: Env) returns (card: Option<string>)
    ensures card == International(text, env)
  {
    if |text| < 2 {
      return None;
    }
    var compressed, rest := text[0] == 1, text[2..];
    var z := FirstZero(rest);
    if z == |rest| {
      return None;
    }
    rest := rest[z + 1..];
    z := FirstZero(rest);
    if z == |rest| {
      return None;
    }
    var body := rest[z + 1..];
    if compressed {
      var plain := env.inflate(body);
      if plain == None {
        return None;
      }
      body := plain.value;
    }
    return Some(env.decode(body));
  }

  method Inspect(c: Chunk, env: Env) returns (finding: Finding)
    ensures finding == FindingOf(c, env)
  {
    var kind, payload := c.kind, c.data;
    if kind != TEXT && kind != ITEXT {
      return Skip;
    }
    var z := FirstZero(payload);
    if z == |payload| {
      return Skip;
    }
    var keyword, text := payload[..z], payload[z + 1..];
    if keyword != CHARA && keyword != CCV3 {
      return Skip;
    }
    if kind == TEXT {
      return Settled(Some(env.decode(text)));
    }
    var card := ReadInternational(text, env);
    return Settled(card);
  }

  /** One turn of the scan: the chunk at pos, and where the next one starts. A chunk whose
      data runs past the end settles that there is no card. */
  method InspectAt(data: seq<Byte>, pos: nat, env: Env) returns (finding: Finding, next: nat)
    requires pos + 12 <= |data|
    ensures next > pos
    ensures CardOf(ReadChunks(data, pos), env) ==
            if finding.Settled? then finding.card else CardOf(ReadChunks(data, next), env)
  {
    var length := Number(data[pos..pos + 4]);
    next := pos + 12 + length;
    if pos + 8 + length > |data| {
      NoChunk(data, pos, env);
      return Settled(None), next;
    }
    var c := Chunk(data[pos + 4..pos + 8], data[pos + 8..pos + 8 + length]);
    finding := Inspect(c, env);
    NextChunk(data, pos, env, c, finding);
  }

  method ScanChunks(data: seq<Byte>, env: Env) returns (card: Option<string>)
    ensures card == CardOf(ReadChunks(data, 8), env)
  {
    var pos := 8;
    while pos + 12 <= |data|
      invariant pos >= 8
      invariant CardOf(ReadChunks(data, 8), env) == CardOf(ReadChunks(data, pos), env)
      decreases |data| - pos
    {
      var finding, next := InspectAt(data, pos, env);
      if finding.Settled? {
        return finding.card;
      }
      pos := next;
    }
    NoChunk(data, pos, env);
    return None;
  }

  method ExtractCard(data: seq<Byte>, env: Env) returns (card: Option<string>)
    ensures card == if SIGNATURE <= data then CardOf(ReadChunks(data, 8), env) else None
  {
    if !(SIGNATURE <= data) {
      return None;
    }
    card := ScanChunks(data, env);
  }

  // ---------------------------------------------------------------------- round trip

  predicate Writable(chunks: seq<Chunk>, crc: Chunk -> seq<Byte>) {
    forall i :: 0 <= i < |chunks| ==> |chunks[i].kind| == 4 && |chunks[i].data| < LENGTHS && |crc(chunks[i])| == 4
  }

  function WriteChunk(c: Chunk, crc: Chunk -> seq<Byte>): seq<Byte>
    requires |c.data| < LENGTHS
  {
    Digits(|c.data|) + c.kind + c.data + crc(c)
  }

  function WriteChunks(chunks: seq<Chunk>, crc: Chunk -> seq<Byte>): seq<Byte>
    requires Writable(chunks, crc)
  {
    if chunks == [] then [] else WriteChunk(chunks[0], crc) + WriteChunks(chunks[1..], crc)
  }

  /** What stands at pos in a file is found there by the reader. */
  lemma ChunkAt(head: seq<Byte>, c: Chunk, crc: Chunk -> seq<Byte>, tail: seq<Byte>)
    requires |c.kind| == 4 && |c.data| < LENGTHS && |crc(c)| == 4
    ensures var data, pos := head + WriteChunk(c, crc) + tail, |head|;
            && |data| == pos + 12 + |c.data| + |tail|
            && Number(data[pos..pos + 4]) == |c.data|
            && data[pos + 4..pos + 8] == c.kind && data[pos + 8..pos + 8 + |c.data|] == c.data
  {
    var data, pos := head + WriteChunk(c, crc) + tail, |head|;
    assert data[pos..pos + 4] == Digits(|c.data|);
    NumberOfDigits(|c.data|);
  }

  lemma ReadOne(head: seq<Byte>, c: Chunk, crc: Chunk -> seq<Byte>, tail: seq<Byte>)
    requires |c.kind| == 4 && |c.data| < LENGTHS && |crc(c)| == 4
    ensures var data := head + WriteChunk(c, crc) + tail;
            ReadChunks(data, |head|) == [c] + ReadChunks(data, |head + WriteChunk(c, crc)|)
  {
    ChunkAt(head, c, crc, tail);
  }

  lemma Regroup(a: seq<Byte>, b: seq<Byte>, c: seq<Byte>, d: seq<Byte>)
    ensures a + (b + c) + d == a + b + (c + d) == (a + b) + c + d
  {
  }

  /** Reading back what was written, after any start and before a tail too short to be
      another chunk. */
  lemma {:induction false} ReadWritten(head: seq<Byte>, chunks: seq<Chunk>, crc: Chunk -> seq<Byte>, tail: seq<Byte>)
    requires Writable(chunks, crc) && |tail| < 12
    ensures ReadChunks(head + WriteChunks(chunks, crc) + tail, |head|) == chunks
    decreases |chunks|
  {
    if chunks != [] {
      var c, rest := chunks[0], chunks[1..];
      var written := WriteChunks(rest, crc);
      ReadOne(head, c, crc, written + tail);
      ReadWritten(head + WriteChunk(c, crc), rest, crc, tail);
      Regroup(head, WriteChunk(c, crc), written, tail);
      assert WriteChunks(chunks, crc) == WriteChunk(c, crc) + written;
      assert chunks == [c] + rest;
    }
  }

  /** On every well-formed PNG the byte scan is the structural search. */
  lemma ScanIsSearch(chunks: seq<Chunk>, crc: Chunk -> seq<Byte>, env: Env)
    requires Writable(chunks, crc)
    ensures var file := SIGNATURE + WriteChunks(chunks, crc);
            SIGNATURE <= file && CardOf(ReadChunks(file, 8), env) == CardOf(chunks, env)
  {
    ReadWritten(SIGNATURE, chunks, crc, []);
    assert SIGNATURE + WriteChunks(chunks, crc) + [] == SIGNATURE + WriteChunks(chunks, crc);
  }

  lemma PrefixDecides(before: seq<Chunk>, c: Chunk, all: seq<Chunk>, env: Env)
    requires forall b :: b in before ==> (b.kind != TEXT && b.kind != ITEXT) || !Keyed(b)
    requires FindingOf(c, env).Settled? && before + [c] <= all
    ensures CardOf(all, env) == FindingOf(c, env).card
  {
    assert all == before + [c] + all[|before| + 1..];
    FirstDecides(before, c, all[|before| + 1..], env);
  }

  /** Whatever bytes follow, the chunks written first are the first that are read. */
  lemma {:induction false} WrittenComesFirst(head: seq<Byte>, chunks: seq<Chunk>, crc: Chunk -> seq<Byte>,
                                             tail: seq<Byte>)
    requires Writable(chunks, crc)
    ensures chunks <= ReadChunks(head + WriteChunks(chunks, crc) + tail, |head|)
    decreases |chunks|
  {
    if chunks != [] {
      var c, rest := chunks[0], chunks[1..];
      var written := WriteChunks(rest, crc);
      ReadOne(head, c, crc, written + tail);
      WrittenComesFirst(head + WriteChunk(c, crc), rest, crc, tail);
      Regroup(head, WriteChunk(c, crc), written, tail);
      assert WriteChunks(chunks, crc) == WriteChunk(c, crc) + written;
      assert chunks == [c] + rest;
    }
  }

  /** A card is extracted from a file that is damaged or cut off anywhere behind it. */
  lemma CardSurvivesDamage(before: seq<Chunk>, c: Chunk, crc: Chunk -> seq<Byte>, tail: seq<Byte>, env: Env)
    requires forall b :: b in before ==> (b.kind != TEXT && b.kind != ITEXT) || !Keyed(b)
    requires FindingOf(c, env).Settled? && Writable(before + [c], crc)
    ensures var file := SIGNATURE + WriteChunks(before + [c], crc) + tail;
            CardOf(ReadChunks(file, 8), env) == FindingOf(c, env).card
  {
    WrittenComesFirst(SIGNATURE, before + [c], crc, tail);
    PrefixDecides(before, c, ReadChunks(SIGNATURE + WriteChunks(before + [c], crc) + tail, 8), env);
  }

  /** A card embedded in a PNG file is extracted from its bytes. */
  lemma EmbeddedCardIsFound(before: seq<Chunk>, keyword: seq<Byte>, text: seq<Byte>, after: seq<Chunk>,
                            crc: Chunk -> seq<Byte>, env: Env)
    requires keyword in {CHARA, CCV3}
    requires forall c :: c in before ==> (c.kind != TEXT && c.kind != ITEXT) || !Keyed(c)
    requires Writable(before + [TextChunk(keyword, text)] + after, crc)
    ensures var file := SIGNATURE + WriteChunks(before + [TextChunk(keyword, text)] + after, crc);
            CardOf(ReadChunks(file, 8), env) == Some(env.decode(text))
  {
    ScanIsSearch(before + [TextChunk(keyword, text)] + after, crc, env);
    FirstTextDecides(before, keyword, text, after, env);
  }

  // ---------------------------------------------------------------------- truncation

  lemma SliceOfCut(data: seq<Byte>, cut: nat, i: nat, j: nat)
    requires i <= j <= cut <= |data|
    ensures data[..cut][i..j] == data[i..j]
  {
  }

  /** A file cut short gives the chunks that came before the cut, unaltered. */
  lemma {:induction false} CutReadsPrefix(data: seq<Byte>, cut: nat, pos: nat)
    requires cut <= |data|
    ensures ReadChunks(data[..cut], pos) <= ReadChunks(data, pos)
    decreases |data| - pos
  {
    if pos + 12 <= cut {
      SliceOfCut(data, cut, pos, pos + 4);
      var length := Number(data[pos..pos + 4]);
      if pos + 8 + length <= cut {
        SliceOfCut(data, cut, pos + 4, pos + 8);
        SliceOfCut(data, cut, pos + 8, pos + 8 + length);
        CutReadsPrefix(data, cut, pos + 12 + length);
      }
    }
  }

  lemma {:induction false} PrefixCard(a: seq<Chunk>, b: seq<Chunk>, env: Env)
    requires a <= b
    ensures CardOf(a, env) == CardOf(b, env) || CardOf(a, env) == None
  {
    if a != [] {
      PrefixCard(a[1..], b[1..], env);
    }
  }

  /** A truncated file never yields another card than the whole file does. */
  lemma TruncationIsSafe(data: seq<Byte>, cut: nat, env: Env)
    requires SIGNATURE <= data && cut <= |data|
    ensures CardOf(ReadChunks(data[..cut], 8), env) in {CardOf(ReadChunks(data, 8), env), None}
  {
    CutReadsPrefix(data, cut, 8);
    PrefixCard(ReadChunks(data[..cut], 8), ReadChunks(data, 8), env);
  }
}

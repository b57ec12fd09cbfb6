/**
  The pure text operations of a text message: MarkdownV2 escaping for
  `escapedLine`, splitting an over-long text into chunks (`chunkStrings`),
  and turning one payload into the payloads of the chunked messages
  (`sendChunkedMessage` without the HTTP calls).

  Display width is taken as the number of characters.
 */
module MessageText {
  import opened Values
  import opened Payloads
  import opened ArrayChunk

  /** DEFAULT_CHUNK_SIZE, also the cap on a word-wrap width. */
  const DefaultChunkSize: nat := 4096

  // ---------------------------------------------------------------------------
  // MarkdownV2 escaping
  // ---------------------------------------------------------------------------

  /** The characters the MarkdownV2 style of the Bot API requires to be escaped. */
  predicate IsSpecial(c: char) {
    c in "_*[]()~`>#+-=|{}.!"
  }

  /** `str_replace('\\', '\\\\', $s)` */
  function DoubleBackslashes(s: string): string {
    if s == [] then [] else (if s[0] == '\\' then "\\\\" else [s[0]]) + DoubleBackslashes(s[1..])
  }

  /** The `preg_replace_callback` that puts a backslash before every special character. */
  function EscapeSpecials(s: string): string {
    if s == [] then [] else (if IsSpecial(s[0]) then ['\\', s[0]] else [s[0]]) + EscapeSpecials(s[1..])
  }

  /** What `escapedLine` appends (before its newline): the two passes in source order. */
  function Escape(s: string): string {
    EscapeSpecials(DoubleBackslashes(s))
  }

  /** How one input character comes out of `Escape`. */
  function EscapeChar(c: char): string {
    if c == '\\' then "\\\\" else if IsSpecial(c) then ['\\', c] else [c]
  }

  /** Reading an escaped text back: a backslash stands for the character after it. */
  function Unescape(e: string): string {
    if e == [] then []
    else if e[0] == '\\' && |e| >= 2 then [e[1]] + Unescape(e[2..])
    else [e[0]] + Unescape(e[1..])
  }

  lemma {:induction false} EscapeSpecialsAppend(a: string, b: string)
    ensures EscapeSpecials(a + b) == EscapeSpecials(a) + EscapeSpecials(b)
  {
    if a != [] {
      var h := if IsSpecial(a[0]) then ['\\', a[0]] else [a[0]];
      assert (a + b)[0] == a[0] && (a + b)[1..] == a[1..] + b;
      EscapeSpecialsAppend(a[1..], b);
      assert EscapeSpecials(a + b) == h + EscapeSpecials(a[1..] + b);
      assert EscapeSpecials(a) == h + EscapeSpecials(a[1..]);
    } else {
      assert a + b == b;
    }
  }

  /**
    The two passes act character by character: a backslash is doubled, a
    special character gets one backslash, anything else is kept. The order
    of the passes does not matter because a backslash is not special.
   */
  lemma {:induction false} EscapeCons(c: char, s: string)
    ensures Escape([c] + s) == EscapeChar(c) + Escape(s)
  {
    var t := [c] + s;
    assert t[0] == c && t[1..] == s;
    var d := if c == '\\' then "\\\\" else [c];
    assert DoubleBackslashes(t) == d + DoubleBackslashes(s);
    EscapeSpecialsAppend(d, DoubleBackslashes(s));
    if c == '\\' {
      assert !IsSpecial('\\');
      assert d[1..] == "\\";
      assert EscapeSpecials(d) == "\\\\";
    } else {
      assert d[1..] == [];
    }
  }

  /** Unescaping gives back the original line. */
  lemma {:induction false} EscapeRoundTrip(s: string)
    ensures Unescape(Escape(s)) == s
  {
    if s != [] {
      assert s == [s[0]] + s[1..];
      EscapeCons(s[0], s[1..]);
      EscapeRoundTrip(s[1..]);
      var e := EscapeChar(s[0]) + Escape(s[1..]);
      if |EscapeChar(s[0])| == 2 {
        assert e[0] == '\\' && e[1] == s[0] && e[2..] == Escape(s[1..]);
      } else {
        assert e[0] == s[0] != '\\' && e[1..] == Escape(s[1..]);
      }
    }
  }

  /** Escaping works piece by piece. */
  lemma {:induction false} EscapeAppend(a: string, b: string)
    ensures Escape(a + b) == Escape(a) + Escape(b)
  {
    if a != [] {
      assert a + b == [a[0]] + (a[1..] + b);
      assert a == [a[0]] + a[1..];
      EscapeCons(a[0], a[1..] + b);
      EscapeCons(a[0], a[1..]);
      EscapeAppend(a[1..], b);
    } else {
      assert a + b == b;
    }
  }

  /** Text without backslashes and special characters is left as it is. */
  lemma {:induction false} EscapePlain(s: string)
    requires forall i :: 0 <= i < |s| ==> s[i] != '\\' && !IsSpecial(s[i])
    ensures Escape(s) == s
  {
    if s != [] {
      assert s == [s[0]] + s[1..];
      EscapeCons(s[0], s[1..]);
      EscapePlain(s[1..]);
    }
  }

  function CountBackslashes(s: string): nat {
    if s == [] then 0 else (if s[0] == '\\' then 1 else 0) + CountBackslashes(s[1..])
  }

  function CountSpecials(s: string): nat {
    if s == [] then 0 else (if IsSpecial(s[0]) then 1 else 0) + CountSpecials(s[1..])
  }

  /** The escaped line grows by one character per backslash and per special character. */
  lemma {:induction false} EscapeLength(s: string)
    ensures |Escape(s)| == |s| + CountBackslashes(s) + CountSpecials(s)
  {
    if s != [] {
      assert s == [s[0]] + s[1..];
      EscapeCons(s[0], s[1..]);
      EscapeLength(s[1..]);
    }
  }

  // ---------------------------------------------------------------------------
  // Word wrapping (PHP's wordwrap without cut, with a multi-character break)
  // ---------------------------------------------------------------------------

  /** Strictly increasing positions of spaces of `v`, none before `from`. */
  ghost predicate ValidBreaks(v: string, bs: seq<nat>, from: nat) {
    bs == [] || (from <= bs[0] < |v| && v[bs[0]] == ' ' && ValidBreaks(v, bs[1..], bs[0] + 1))
  }

  /**
    The positions of the spaces `wordwrap($v, $width, $break, false)` replaces
    by `$break`, following its scan: `cur` is the current position, `start`
    the start of the current line and `space` the last space seen. A space at
    least `width` past the line start ends the line; a non-space that far
    ends the line at the last space, if the line has one.
   */
  function WrapBreaks(v: string, width: nat, cur: nat, start: nat, space: nat): (bs: seq<nat>)
    requires start <= cur <= |v| && space <= cur
    requires start < space ==> space < |v| && v[space] == ' '
    ensures ValidBreaks(v, bs, start)
    decreases |v| - cur
  {
    if cur == |v| then []
    else if v[cur] == ' ' then
      if cur - start >= width then [cur] + WrapBreaks(v, width, cur + 1, cur + 1, cur)
      else WrapBreaks(v, width, cur + 1, start, cur)
    else if cur - start >= width && start < space then
      [space] + WrapBreaks(v, width, cur + 1, space + 1, space + 1)
    else
      WrapBreaks(v, width, cur + 1, start, space)
  }

  /** The pieces of `v[from..]` between the break positions. */
  function SplitAt(v: string, bs: seq<nat>, from: nat): (pieces: seq<string>)
    requires from <= |v| && ValidBreaks(v, bs, from)
    ensures |pieces| == |bs| + 1
  {
    if bs == [] then [v[from..]] else [v[from..bs[0]]] + SplitAt(v, bs[1..], bs[0] + 1)
  }

  /** `explode($break, wordwrap($v, $width, $break))` for a text that does not contain `$break`. */
  function WordWrap(v: string, width: nat): (pieces: seq<string>)
    ensures |pieces| >= 1
  {
    SplitAt(v, WrapBreaks(v, width, 0, 0, 0), 0)
  }

  /** `implode(' ', $pieces)` */
  function JoinWithSpaces(pieces: seq<string>): string {
    if pieces == [] then ""
    else if |pieces| == 1 then pieces[0]
    else pieces[0] + " " + JoinWithSpaces(pieces[1..])
  }

  /** Every break replaces exactly one space, so joining the pieces with spaces restores the text. */
  lemma {:induction false} SplitAtJoin(v: string, bs: seq<nat>, from: nat)
    requires from <= |v| && ValidBreaks(v, bs, from)
    ensures JoinWithSpaces(SplitAt(v, bs, from)) == v[from..]
    decreases |bs|
  {
    if bs != [] {
      var b := bs[0];
      var rest := SplitAt(v, bs[1..], b + 1);
      SplitAtJoin(v, bs[1..], b + 1);
      assert SplitAt(v, bs, from) == [v[from..b]] + rest;
      assert v[from..] == v[from..b] + " " + v[b + 1..];
    }
  }

  /** Word wrapping only ever replaces spaces: the pieces joined by spaces are the text. */
  lemma WordWrapJoin(v: string, width: nat)
    ensures JoinWithSpaces(WordWrap(v, width)) == v
  {
    SplitAtJoin(v, WrapBreaks(v, width, 0, 0, 0), 0);
  }

  /** A text without spaces cannot be word-wrapped: it stays one piece. */
  lemma WordWrapNoSpace(v: string, width: nat)
    requires ' ' !in v
    ensures WordWrap(v, width) == [v]
  {
    var bs := WrapBreaks(v, width, 0, 0, 0);
    if bs != [] {
      assert false;
    }
  }

  // ---------------------------------------------------------------------------
  // chunkStrings
  // ---------------------------------------------------------------------------

  function Min(a: int, b: int): int {
    if a <= b then a else b
  }

  /**
    A text that fits the limit is one chunk. Otherwise it is word-wrapped at
    `min(limit, 4096)`; when that gives at most one piece, the text is cut
    into fixed-size pieces instead (`mb_str_split`).
   */
  function ChunkStrings(v: string, limit: int): (chunks: seq<string>)
    requires limit >= 1
    ensures |v| <= limit ==> chunks == [v]
    ensures |v| > limit ==> |chunks| >= 2
  {
    if |v| <= limit then [v]
    else
      var w := Min(limit, DefaultChunkSize);
      var output := WordWrap(v, w);
      if |output| <= 1 then
        ChunkRowCount(v, w);
        Chunk(v, w)
      else output
  }

  /** When word wrapping splits the text, the chunks joined by spaces are the text. */
  lemma ChunkStringsWrapped(v: string, limit: int)
    requires limit >= 1 && |v| > limit
    requires |WordWrap(v, Min(limit, DefaultChunkSize))| >= 2
    ensures JoinWithSpaces(ChunkStrings(v, limit)) == v
  {
    WordWrapJoin(v, Min(limit, DefaultChunkSize));
  }

  /**
    In the fallback, the chunks concatenate to the text, each has at most
    `min(limit, 4096)` characters and all but the last have exactly that many.
   */
  lemma ChunkStringsFallback(v: string, limit: int)
    requires limit >= 1 && |v| > limit
    requires |WordWrap(v, Min(limit, DefaultChunkSize))| <= 1
    ensures IsLayout(ChunkStrings(v, limit), v, Min(limit, DefaultChunkSize))
    ensures forall i :: 0 <= i < |ChunkStrings(v, limit)| ==> |ChunkStrings(v, limit)[i]| <= DefaultChunkSize
  {
  }

  /** A text with no space that does not fit is always cut into fixed-size pieces. */
  lemma ChunkStringsNoSpace(v: string, limit: int)
    requires limit >= 1 && |v| > limit && ' ' !in v
    ensures ChunkStrings(v, limit) == Chunk(v, Min(limit, DefaultChunkSize))
  {
    WordWrapNoSpace(v, Min(limit, DefaultChunkSize));
  }

  // ---------------------------------------------------------------------------
  // The payloads of a chunked message
  // ---------------------------------------------------------------------------

  /** The chunks `->filter()` keeps as written: the truthy strings, so "" and "0" are dropped. */
  predicate KeepChunkAsWritten(t: string) {
    Truthy(Str(t))
  }

  /** The chunks evidently meant to be kept: every non-empty one. */
  predicate KeepChunk(t: string) {
    t != ""
  }

  function Filter(chunks: seq<string>, keep: string -> bool): (kept: seq<string>)
    ensures |kept| <= |chunks|
  {
    if chunks == [] then []
    else (if keep(chunks[0]) then [chunks[0]] else []) + Filter(chunks[1..], keep)
  }

  /** The payload of one chunk: `params` with its text replaced, plus the markup on the last chunk. */
  function ChunkPayload(params: Payload, text: string, isLast: bool, markup: Value): Payload {
    var p := Set(params, "text", Str(text));
    if isLast && markup != Null then Set(p, "reply_markup", markup) else p
  }

  /**
    The indices from `from` on whose chunk `keep` accepts, in increasing
    order: `->filter()` keeps each chunk with its original index.
   */
  function KeptIndices(chunks: seq<string>, keep: string -> bool, from: nat): (ks: seq<nat>)
    requires from <= |chunks|
    ensures forall i :: 0 <= i < |ks| ==> from <= ks[i] < |chunks| && keep(chunks[ks[i]])
    ensures forall i, j :: 0 <= i < j < |ks| ==> ks[i] < ks[j]
    ensures forall x :: from <= x < |chunks| && keep(chunks[x]) ==> x in ks
    decreases |chunks| - from
  {
    if from == |chunks| then []
    else (if keep(chunks[from]) then [from] else []) + KeptIndices(chunks, keep, from + 1)
  }

  /**
    The payloads sent for `chunks`, one per kept chunk in order; the chunk at
    the last index of `chunks` (kept or not) is the one that gets the markup.
   */
  function Outgoing(params: Payload, chunks: seq<string>, markup: Value, keep: string -> bool): (out: seq<Payload>)
    ensures |out| == |KeptIndices(chunks, keep, 0)|
  {
    var ks := KeptIndices(chunks, keep, 0);
    seq(|ks|, i requires 0 <= i < |ks| => ChunkPayload(params, chunks[ks[i]], ks[i] == |chunks| - 1, markup))
  }

  /** The markup `sendChunkedMessage` reads from the payload (null when absent). */
  function MarkupOf(payload: Payload): Value {
    ValueOrNull(Lookup(payload, "reply_markup"))
  }

  /** The shared parameters: the payload without a truthy `reply_markup`. */
  function ParamsOf(payload: Payload): Payload {
    if Truthy(MarkupOf(payload)) then Unset(payload, "reply_markup") else payload
  }

  /**
    The per-chunk payloads of `sendChunkedMessage(payload)`: a truthy
    `reply_markup` is taken out of the shared parameters and put back on the
    chunk at the last index only. None when `text` is not a string (a
    TypeError under strict types).
   */
  function SplitForSending(payload: Payload, chunkSize: int, keep: string -> bool): Option<seq<Payload>>
    requires chunkSize >= 1
  {
    var params := ParamsOf(payload);
    match Lookup(params, "text")
    case Some(Str(text)) => Some(Outgoing(params, ChunkStrings(text, chunkSize), MarkupOf(payload), keep))
    case _ => None
  }

  /** `text` holds a string, so that `chunkStrings` accepts it. */
  predicate HasTextString(payload: Payload) {
    Lookup(payload, "text").Some? && Lookup(payload, "text").value.Str?
  }

  /** The string in `text` ("" when there is none). */
  function TextOf(payload: Payload): string {
    match Lookup(payload, "text")
    case Some(Str(s)) => s
    case _ => ""
  }

  /** Each payload of `out` carries the next chunk of `kept` as its text. */
  ghost predicate SendsTexts(out: seq<Payload>, kept: seq<string>) {
    |out| == |kept| && forall j :: 0 <= j < |out| ==> Lookup(out[j], "text") == Some(Str(kept[j]))
  }

  /** Every payload of `out` has the keys other than `text` and `reply_markup` as in `payload`. */
  ghost predicate KeepsOtherKeys(out: seq<Payload>, payload: Payload) {
    forall j, k :: 0 <= j < |out| && k != "text" && k != "reply_markup" ==> Lookup(out[j], k) == Lookup(payload, k)
  }

  /**
    A truthy `reply_markup` of `payload` is on the last payload of `out`
    only, and only when `markupOnLast`; a falsy one stays in the parameters
    of every payload.
   */
  ghost predicate PlacesMarkup(out: seq<Payload>, payload: Payload, markupOnLast: bool) {
    forall j :: 0 <= j < |out| ==>
      Lookup(out[j], "reply_markup") ==
        if !Truthy(MarkupOf(payload)) then Lookup(payload, "reply_markup")
        else if markupOnLast && j == |out| - 1 then Some(MarkupOf(payload))
        else None
  }

  /**
    `out` sends the chunks `kept` on top of `payload`: one payload per kept
    chunk, in order, each with its chunk as `text`, every other key as in
    `payload`, and the markup placed as `PlacesMarkup` says.
   */
  ghost predicate SendsChunks(out: seq<Payload>, payload: Payload, kept: seq<string>, markupOnLast: bool) {
    SendsTexts(out, kept) && KeepsOtherKeys(out, payload) && PlacesMarkup(out, payload, markupOnLast)
  }

  lemma OutgoingSendsTexts(payload: Payload, chunks: seq<string>, keep: string -> bool)
    ensures SendsTexts(Outgoing(ParamsOf(payload), chunks, MarkupOf(payload), keep), Filter(chunks, keep))
  {
    var out := Outgoing(ParamsOf(payload), chunks, MarkupOf(payload), keep);
    OutgoingCount(ParamsOf(payload), chunks, MarkupOf(payload), keep);
    forall j | 0 <= j < |out|
      ensures Lookup(out[j], "text") == Some(Str(Filter(chunks, keep)[j]))
    {
      OutgoingTexts(ParamsOf(payload), chunks, MarkupOf(payload), keep, j);
    }
  }

  lemma OutgoingKeepsOtherKeys(payload: Payload, chunks: seq<string>, keep: string -> bool)
    ensures KeepsOtherKeys(Outgoing(ParamsOf(payload), chunks, MarkupOf(payload), keep), payload)
  {
    var out := Outgoing(ParamsOf(payload), chunks, MarkupOf(payload), keep);
    forall j, k | 0 <= j < |out| && k != "text" && k != "reply_markup"
      ensures Lookup(out[j], k) == Lookup(payload, k)
    {
      OutgoingKeepsParams(ParamsOf(payload), chunks, MarkupOf(payload), keep, j, k);
    }
  }

  lemma OutgoingPlacesMarkup(payload: Payload, chunks: seq<string>, keep: string -> bool)
    requires chunks != []
    ensures PlacesMarkup(Outgoing(ParamsOf(payload), chunks, MarkupOf(payload), keep), payload,
                         keep(chunks[|chunks| - 1]))
  {
    var params, markup := ParamsOf(payload), MarkupOf(payload);
    var out := Outgoing(params, chunks, markup, keep);
    forall j | 0 <= j < |out|
      ensures Lookup(out[j], "reply_markup") ==
                if !Truthy(markup) then Lookup(payload, "reply_markup")
                else if keep(chunks[|chunks| - 1]) && j == |out| - 1 then Some(markup)
                else None
    {
      if Truthy(markup) {
        OutgoingMarkup(params, chunks, markup, keep, j);
      } else {
        var ks := KeptIndices(chunks, keep, 0);
        ChunkPayloadFalsyMarkup(params, chunks[ks[j]], ks[j] == |chunks| - 1, markup);
      }
    }
  }

  /**
    `sendChunkedMessage` sends the kept chunks of the text, each on the
    parameters with only `text` replaced, and the markup on the chunk at the
    last index alone.
   */
  lemma SplitForSendingSpec(payload: Payload, chunkSize: int, keep: string -> bool)
    requires chunkSize >= 1
    ensures SplitForSending(payload, chunkSize, keep).Some? <==> HasTextString(payload)
    ensures HasTextString(payload) ==>
              var chunks := ChunkStrings(TextOf(payload), chunkSize);
              SendsChunks(SplitForSending(payload, chunkSize, keep).value, payload,
                          Filter(chunks, keep), keep(chunks[|chunks| - 1]))
  {
    SplitForSendingUnfold(payload, chunkSize, keep);
    if HasTextString(payload) {
      var chunks := ChunkStrings(TextOf(payload), chunkSize);
      OutgoingSendsTexts(payload, chunks, keep);
      OutgoingKeepsOtherKeys(payload, chunks, keep);
      OutgoingPlacesMarkup(payload, chunks, keep);
    }
  }

  lemma SplitForSendingUnfold(payload: Payload, chunkSize: int, keep: string -> bool)
    requires chunkSize >= 1
    ensures SplitForSending(payload, chunkSize, keep) ==
              if HasTextString(payload)
              then Some(Outgoing(ParamsOf(payload), ChunkStrings(TextOf(payload), chunkSize), MarkupOf(payload), keep))
              else None
  {
    assert Lookup(ParamsOf(payload), "text") == Lookup(payload, "text");
  }

  /** The keys of `params` with `text` in place, or appended when it is new: `[...$params, 'text' => $text]`. */
  function KeysWithText(params: Payload): seq<string> {
    if "text" in params.values then params.keys else params.keys + ["text"]
  }

  /**
    The keys of each sent payload, in order: the parameters' keys with `text`
    in place or appended, then `reply_markup` last on the payload that adds
    the markup (a markup already in the parameters keeps its place).
   */
  lemma OutgoingKeys(params: Payload, chunks: seq<string>, markup: Value, keep: string -> bool, j: nat)
    requires j < |Outgoing(params, chunks, markup, keep)|
    ensures Outgoing(params, chunks, markup, keep)[j].keys ==
              KeysWithText(params) +
              if "reply_markup" !in params.values && Lookup(Outgoing(params, chunks, markup, keep)[j], "reply_markup").Some?
              then ["reply_markup"] else []
  {
  }

  /** A falsy markup is left in the parameters, so each payload keeps what they hold. */
  lemma ChunkPayloadFalsyMarkup(params: Payload, text: string, isLast: bool, markup: Value)
    requires markup == ValueOrNull(Lookup(params, "reply_markup"))
    ensures Lookup(ChunkPayload(params, text, isLast, markup), "reply_markup") == Lookup(params, "reply_markup")
  {
  }

  /** The chunked payloads as the source computes them: a falsy chunk ("" or "0") is not sent. */
  function ChunkedPayloadsAsWritten(payload: Payload, chunkSize: int): (r: Option<seq<Payload>>)
    requires chunkSize >= 1
    ensures r.Some? <==> HasTextString(payload)
    ensures r.Some? ==>
              var chunks := ChunkStrings(TextOf(payload), chunkSize);
              SendsChunks(r.value, payload, Filter(chunks, KeepChunkAsWritten),
                          KeepChunkAsWritten(chunks[|chunks| - 1]))
  {
    SplitForSendingSpec(payload, chunkSize, KeepChunkAsWritten);
    SplitForSending(payload, chunkSize, KeepChunkAsWritten)
  }

  /** The chunked payloads with only empty chunks skipped. */
  function ChunkedPayloads(payload: Payload, chunkSize: int): (r: Option<seq<Payload>>)
    requires chunkSize >= 1
    ensures r.Some? <==> HasTextString(payload)
    ensures r.Some? ==>
              var chunks := ChunkStrings(TextOf(payload), chunkSize);
              SendsChunks(r.value, payload, Filter(chunks, KeepChunk), KeepChunk(chunks[|chunks| - 1]))
  {
    SplitForSendingSpec(payload, chunkSize, KeepChunk);
    SplitForSending(payload, chunkSize, KeepChunk)
  }

  /** As many indices are kept as `Filter` keeps chunks. */
  lemma {:induction false} KeptIndicesCount(chunks: seq<string>, keep: string -> bool, from: nat)
    requires from <= |chunks|
    ensures |KeptIndices(chunks, keep, from)| == |Filter(chunks[from..], keep)|
    decreases |chunks| - from
  {
    if from < |chunks| {
      KeptIndicesCount(chunks, keep, from + 1);
      assert chunks[from..][0] == chunks[from] && chunks[from..][1..] == chunks[from + 1..];
    }
  }

  /** The kept indices pick out exactly the chunks `Filter` keeps, in order. */
  lemma {:induction false} KeptIndicesFilter(chunks: seq<string>, keep: string -> bool, from: nat, i: nat)
    requires from <= |chunks| && i < |KeptIndices(chunks, keep, from)|
    ensures i < |Filter(chunks[from..], keep)|
    ensures chunks[KeptIndices(chunks, keep, from)[i]] == Filter(chunks[from..], keep)[i]
    decreases |chunks| - from
  {
    KeptIndicesCount(chunks, keep, from);
    var c := chunks[from];
    var rest := KeptIndices(chunks, keep, from + 1);
    var tail := Filter(chunks[from + 1..], keep);
    assert chunks[from..] == [c] + chunks[from + 1..];
    if keep(c) {
      assert KeptIndices(chunks, keep, from) == [from] + rest;
      assert Filter(chunks[from..], keep) == [c] + tail;
      if i > 0 {
        KeptIndicesFilter(chunks, keep, from + 1, i - 1);
      }
    } else {
      assert KeptIndices(chunks, keep, from) == rest;
      assert Filter(chunks[from..], keep) == tail;
      KeptIndicesFilter(chunks, keep, from + 1, i);
    }
  }

  /** As many payloads are sent as chunks are kept. */
  lemma OutgoingCount(params: Payload, chunks: seq<string>, markup: Value, keep: string -> bool)
    ensures |Outgoing(params, chunks, markup, keep)| == |Filter(chunks, keep)|
  {
    KeptIndicesCount(chunks, keep, 0);
    assert chunks[0..] == chunks;
  }

  /** Each sent payload carries the next kept chunk as its text. */
  lemma OutgoingTexts(params: Payload, chunks: seq<string>, markup: Value, keep: string -> bool, j: nat)
    requires j < |Outgoing(params, chunks, markup, keep)|
    ensures j < |Filter(chunks, keep)|
    ensures Lookup(Outgoing(params, chunks, markup, keep)[j], "text") == Some(Str(Filter(chunks, keep)[j]))
  {
    var ks := KeptIndices(chunks, keep, 0);
    KeptIndicesFilter(chunks, keep, 0, j);
    assert chunks[0..] == chunks;
    ChunkPayloadText(params, chunks[ks[j]], ks[j] == |chunks| - 1, markup);
  }

  lemma ChunkPayloadText(params: Payload, text: string, isLast: bool, markup: Value)
    ensures Lookup(ChunkPayload(params, text, isLast, markup), "text") == Some(Str(text))
  {
  }

  /** Apart from `text` and `reply_markup`, each sent payload is `params` unchanged. */
  lemma OutgoingKeepsParams(params: Payload, chunks: seq<string>, markup: Value,
                            keep: string -> bool, j: nat, k: string)
    requires j < |Outgoing(params, chunks, markup, keep)|
    requires k != "text" && k != "reply_markup"
    ensures Lookup(Outgoing(params, chunks, markup, keep)[j], k) == Lookup(params, k)
  {
    var ks := KeptIndices(chunks, keep, 0);
    ChunkPayloadOther(params, chunks[ks[j]], ks[j] == |chunks| - 1, markup, k);
  }

  lemma ChunkPayloadOther(params: Payload, text: string, isLast: bool, markup: Value, k: string)
    requires k != "text" && k != "reply_markup"
    ensures Lookup(ChunkPayload(params, text, isLast, markup), k) == Lookup(params, k)
  {
  }

  /**
    When `params` has no `reply_markup`, only the last sent payload can carry
    it, and it does exactly when the chunk at the last index was kept; a
    skipped last chunk means no payload carries the markup.
   */
  lemma OutgoingMarkup(params: Payload, chunks: seq<string>, markup: Value, keep: string -> bool, j: nat)
    requires "reply_markup" !in params.values && markup != Null
    requires j < |Outgoing(params, chunks, markup, keep)|
    ensures Lookup(Outgoing(params, chunks, markup, keep)[j], "reply_markup") ==
              if j == |Outgoing(params, chunks, markup, keep)| - 1 && keep(chunks[|chunks| - 1])
              then Some(markup) else None
  {
    var ks := KeptIndices(chunks, keep, 0);
    ChunkPayloadMarkup(params, chunks[ks[j]], ks[j] == |chunks| - 1, markup);
    KeptLast(chunks, keep, j);
  }

  /** A kept index is the last index of `chunks` exactly when it is the last kept one and the last chunk is kept. */
  lemma KeptLast(chunks: seq<string>, keep: string -> bool, j: nat)
    requires j < |KeptIndices(chunks, keep, 0)|
    ensures var ks := KeptIndices(chunks, keep, 0);
            ks[j] == |chunks| - 1 <==> j == |ks| - 1 && keep(chunks[|chunks| - 1])
  {
    var ks := KeptIndices(chunks, keep, 0);
    var last := |chunks| - 1;
    assert j < |ks| - 1 ==> ks[j] < ks[|ks| - 1];
    if keep(chunks[last]) {
      assert last in ks;
      var m :| 0 <= m < |ks| && ks[m] == last;
      assert ks[m] <= ks[|ks| - 1];
    }
  }

  lemma ChunkPayloadMarkup(params: Payload, text: string, isLast: bool, markup: Value)
    requires "reply_markup" !in params.values && markup != Null
    ensures Lookup(ChunkPayload(params, text, isLast, markup), "reply_markup") == if isLast then Some(markup) else None
  {
  }

  /** If the chunk at the last index is kept, something is sent. */
  lemma OutgoingLastKept(params: Payload, chunks: seq<string>, markup: Value, keep: string -> bool)
    requires chunks != []
    ensures keep(chunks[|chunks| - 1]) ==> |Outgoing(params, chunks, markup, keep)| >= 1
  {
    if keep(chunks[|chunks| - 1]) {
      assert |chunks| - 1 in KeptIndices(chunks, keep, 0);
    }
  }

  /** Skipping only empty chunks loses no character of the chunks. */
  lemma {:induction false} KeepChunkLosesNothing(chunks: seq<string>)
    ensures Flatten(Filter(chunks, KeepChunk)) == Flatten(chunks)
  {
    if chunks != [] {
      KeepChunkLosesNothing(chunks[1..]);
      FlattenAppend(if KeepChunk(chunks[0]) then [chunks[0]] else [], Filter(chunks[1..], KeepChunk));
    }
  }

  /**
    Tied to the real send: a long text with no space is cut into fixed-size
    pieces, and skipping only the empty ones keeps every character of it.
   */
  lemma KeepChunkLosesNoText(v: string, limit: int)
    requires limit >= 1 && |v| > limit && ' ' !in v
    ensures Flatten(Filter(ChunkStrings(v, limit), KeepChunk)) == v
  {
    ChunkStringsNoSpace(v, limit);
    KeepChunkLosesNothing(ChunkStrings(v, limit));
  }

  lemma {:induction false} FlattenAppend<T>(a: seq<seq<T>>, b: seq<seq<T>>)
    ensures Flatten(a + b) == Flatten(a) + Flatten(b)
  {
    if a != [] {
      assert (a + b)[0] == a[0] && (a + b)[1..] == a[1..] + b;
      FlattenAppend(a[1..], b);
      assert Flatten(a + b) == a[0] + Flatten(a[1..] + b);
    } else {
      assert a + b == b;
    }
  }

  /**
    As written, a chunk that is exactly "0" is not sent: a 5-character text
    with no space and a limit of 4 is cut into "abcd" and "0", and only
    "abcd" goes out.
   */
  lemma ZeroChunkIsDropped()
    ensures ChunkStrings("abcd0", 4) == ["abcd", "0"]
    ensures Filter(ChunkStrings("abcd0", 4), KeepChunkAsWritten) == ["abcd"]
    ensures Filter(ChunkStrings("abcd0", 4), KeepChunk) == ["abcd", "0"]
  {
    var v := "abcd0";
    ChunkStringsNoSpace(v, 4);
    assert v[..4] == "abcd" && v[4..] == "0";
    assert Chunk(v, 4) == ["abcd"] + Chunk("0", 4);
    var chunks := ["abcd", "0"];
    assert chunks[1..] == ["0"];
    assert !KeepChunkAsWritten("0");
  }
}

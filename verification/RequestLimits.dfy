/** The request size limit: the declared length as a digit string, and the buffered body. */
module RequestLimits {
  import opened Text
  import AuditChain

  type Header = (string, string)

  function LowerChar(c: char): char {
    if 'A' <= c <= 'Z' then (c as int + 32) as char else c
  }

  function Lower(s: string): string {
    seq(|s|, i requires 0 <= i < |s| => LowerChar(s[i]))
  }

  /** The values of the headers with this name, whatever their case, in order. */
  function Values(headers: seq<Header>, name: string): seq<string> {
    if headers == [] then []
    else (if Lower(headers[0].0) == name then [headers[0].1] else []) + Values(headers[1..], name)
  }

  /** The name is `lower` but for the case of ASCII letters. */
  predicate SameName(name: string, lower: string) {
    && |name| == |lower|
    && forall i :: 0 <= i < |name| ==>
         if 'A' <= name[i] <= 'Z' then name[i] as int - 'A' as int + 'a' as int == lower[i] as int
         else name[i] == lower[i]
  }

  /** Values are collected header by header, in order, and names are compared without regard to case. */
  lemma ValuesInOrder(headers: seq<Header>, h: Header, name: string)
    ensures Values([h] + headers, name) == (if SameName(h.0, name) then [h.1] else []) + Values(headers, name)
    ensures Values([], name) == []
  {
    assert ([h] + headers)[1..] == headers;
    assert Lower(h.0) == name <==> SameName(h.0, name) by {
      if Lower(h.0) == name {
        forall i | 0 <= i < |name| ensures LowerChar(h.0[i]) == name[i] { assert Lower(h.0)[i] == name[i]; }
      }
    }
  }

  // ---- Numerals ---------------------------------------------------------------------------

  function Pow10(n: nat): (p: nat)
    ensures p >= 1
  {
    if n == 0 then 1 else 10 * Pow10(n - 1)
  }

  function DigitOf(c: char): nat
    requires IsDigit(c)
  {
    c as int - '0' as int
  }

  function StripZeros(s: string): (t: string)
    ensures AllDigits(s) ==> AllDigits(t)
    ensures t != "" ==> t[0] != '0'
  {
    if s != "" && s[0] == '0' then StripZeros(s[1..]) else s
  }

  /** Python's a > b on bytes. */
  predicate LexGreater(a: string, b: string) {
    if a == "" || b == "" then a != ""
    else if a[0] != b[0] then a[0] > b[0]
    else LexGreater(a[1..], b[1..])
  }

  lemma TenTimes(d: nat, p: nat, n: nat)
    ensures (d * p + n) * 10 == d * (10 * p) + n * 10
  {
  }

  lemma {:induction false} LeadingDigit(s: string)
    requires AllDigits(s) && s != ""
    ensures NumericValue(s) == DigitOf(s[0]) * Pow10(|s| - 1) + NumericValue(s[1..])
  {
    var (front, rest, last) := (s[..|s| - 1], s[1..], s[|s| - 1]);
    if |s| > 1 {
      LeadingDigit(front);
      assert front[1..] == rest[..|rest| - 1];
      TenTimes(DigitOf(s[0]), Pow10(|s| - 2), NumericValue(front[1..]));
    } else {
      assert rest == "" && front == "";
    }
  }

  lemma {:induction false} ValueBelowPower(s: string)
    requires AllDigits(s)
    ensures NumericValue(s) < Pow10(|s|)
  {
    if s != "" { ValueBelowPower(s[..|s| - 1]); }
  }

  lemma {:induction false} PowersGrow(m: nat, n: nat)
    requires m <= n
    ensures Pow10(m) <= Pow10(n)
  {
    if m < n { PowersGrow(m, n - 1); }
  }

  lemma DigitTimes(d: nat, e: nat, p: nat)
    requires d <= e
    ensures d * p <= e * p && (d < e ==> d * p + p <= e * p)
  {
    if d < e { assert (d + 1) * p <= e * p; }
  }

  lemma {:induction false} StripZerosKeepsValue(s: string)
    requires AllDigits(s)
    ensures NumericValue(StripZeros(s)) == NumericValue(s)
  {
    if s != "" && s[0] == '0' {
      LeadingDigit(s);
      StripZerosKeepsValue(s[1..]);
    }
  }

  lemma {:induction false} SameLengthCompares(a: string, b: string)
    requires AllDigits(a) && AllDigits(b) && |a| == |b|
    ensures LexGreater(a, b) <==> NumericValue(a) > NumericValue(b)
  {
    if a != "" {
      SameLengthCompares(a[1..], b[1..]);
      LeadingDigit(a);
      LeadingDigit(b);
      ValueBelowPower(a[1..]);
      ValueBelowPower(b[1..]);
      if a[0] > b[0] { DigitTimes(DigitOf(b[0]), DigitOf(a[0]), Pow10(|a| - 1)); }
      if a[0] < b[0] { DigitTimes(DigitOf(a[0]), DigitOf(b[0]), Pow10(|a| - 1)); }
    }
  }

  lemma LongerIsGreater(a: string, b: string)
    requires AllDigits(a) && AllDigits(b) && |a| > |b| && a[0] != '0'
    ensures NumericValue(a) > NumericValue(b)
  {
    LeadingDigit(a);
    ValueBelowPower(b);
    PowersGrow(|b|, |a| - 1);
    DigitTimes(1, DigitOf(a[0]), Pow10(|a| - 1));
  }

  /** Comparing lengths first and bytes second compares the numbers, for numerals of any length. */
  lemma NumeralsCompare(a: string, b: string)
    requires AllDigits(a) && AllDigits(b) && a != "" && b != ""
    requires a[0] != '0' || a == "0"
    requires b[0] != '0' || b == "0"
    ensures |a| > |b| || (|a| == |b| && LexGreater(a, b)) <==> NumericValue(a) > NumericValue(b)
  {
    if |a| > |b| { LongerIsGreater(a, b); }
    else if |a| < |b| { LongerIsGreater(b, a); }
    else { SameLengthCompares(a, b); }
  }

  // ---- The declared length ------------------------------------------------------------------

  /** Framing that section 8.6 of RFC 9110 does not allow, or that two readers may take differently. */
  predicate Ambiguous(headers: seq<Header>) {
    var lengths := Values(headers, "content-length");
    || (lengths != [] && Values(headers, "transfer-encoding") != [])
    || |lengths| > 1
    || (lengths != [] && (lengths[0] == "" || !AllDigits(lengths[0])))
  }

  /** The declared number of bytes, when there is one. */
  predicate DeclaresMoreThan(headers: seq<Header>, limit: nat)
    requires !Ambiguous(headers)
  {
    var lengths := Values(headers, "content-length");
    lengths != [] && NumericValue(lengths[0]) > limit
  }

  datatype HeaderVerdict = BadRequest | TooLarge | Acceptable

  method CheckHeaders(headers: seq<Header>, maxBytes: nat) returns (verdict: HeaderVerdict)
    ensures verdict.BadRequest? <==> Ambiguous(headers)
    ensures !Ambiguous(headers) ==> (verdict.TooLarge? <==> DeclaresMoreThan(headers, maxBytes))
  {
    var lengths, encodings := Values(headers, "content-length"), Values(headers, "transfer-encoding");
    if encodings != [] && lengths != [] { return BadRequest; }
    if |lengths| > 1 { return BadRequest; }
    if lengths != [] {
      var raw := lengths[0];
      if raw == "" || !AllDigits(raw) { return BadRequest; }
      var stripped := StripZeros(raw);
      var normalized := if stripped == "" then "0" else stripped;
      var limit := Decimal(maxBytes);
      StripZerosKeepsValue(raw);
      assert NumericValue(normalized) == NumericValue(raw);
      DecimalValue(maxBytes);
      NumeralsCompare(normalized, limit);
      if |normalized| > |limit| || (|normalized| == |limit| && LexGreater(normalized, limit)) { return TooLarge; }
    }
    verdict := Acceptable;
  }

  // ---- The body -------------------------------------------------------------------------------

  type Bytes = AuditChain.Bytes

  /** What receive() yields; a missing body is empty and a missing more_body is false. */
  datatype Message = Disconnect | Chunk(body: Bytes, more: bool) | Other

  function Body(messages: seq<Message>): Bytes {
    if messages == [] then []
    else
      var last := messages[|messages| - 1];
      Body(messages[..|messages| - 1]) + if last.Chunk? then last.body else []
  }

  /** The body is every chunk's bytes, in the order of arrival. */
  lemma {:induction false} BodyInOrder(a: seq<Message>, b: seq<Message>)
    ensures Body(a + b) == Body(a) + Body(b)
    ensures forall bytes, more :: Body([Chunk(bytes, more)]) == bytes
    ensures Body([Other]) == [] && Body([Disconnect]) == []
    decreases |b|
  {
    forall m: Message ensures Body([m]) == if m.Chunk? then m.body else [] {
      assert [m][..0] == [];
    }
    if b == [] {
      assert a + b == a;
    } else {
      BodyInOrder(a, b[..|b| - 1]);
      assert (a + b)[..|a + b| - 1] == a + b[..|b| - 1];
    }
  }

  /** The first n messages neither end the body nor disconnect. */
  predicate Streaming(messages: seq<Message>, n: nat)
    requires n <= |messages|
  {
    forall i :: 0 <= i < n ==> messages[i].Other? || (messages[i].Chunk? && messages[i].more)
  }

  /** Message n completes the body. */
  predicate CompletesAt(messages: seq<Message>, n: nat) {
    n < |messages| && Streaming(messages, n) && messages[n].Chunk? && !messages[n].more
  }

  predicate DisconnectsAt(messages: seq<Message>, n: nat) {
    n < |messages| && Streaming(messages, n) && messages[n].Disconnect?
  }

  /** The body received with message n is over the limit, and the stream was still open before it. */
  predicate OverflowsAt(messages: seq<Message>, n: nat, limit: nat) {
    n < |messages| && Streaming(messages, n) && |Body(messages[..n + 1])| > limit
  }

  lemma {:induction false} BodyGrows(messages: seq<Message>, m: nat, n: nat)
    requires m <= n <= |messages|
    ensures |Body(messages[..m])| <= |Body(messages[..n])|
  {
    if m < n {
      BodyGrows(messages, m, n - 1);
      assert messages[..n][..n - 1] == messages[..n - 1];
    }
  }

  /** The loop as it stands after n messages: open, and within the limit. */
  predicate Buffering(messages: seq<Message>, n: nat, limit: nat) {
    n <= |messages| && Streaming(messages, n) && |Body(messages[..n])| <= limit
  }

  /** Nothing has been decided before message n of an open stream within the limit. */
  lemma NothingDecidedBefore(messages: seq<Message>, n: nat, limit: nat)
    requires Buffering(messages, n, limit)
    ensures forall k: nat ::
              CompletesAt(messages, k) || DisconnectsAt(messages, k) || OverflowsAt(messages, k, limit) ==> k >= n
  {
    forall k: nat | k < n ensures !OverflowsAt(messages, k, limit) { BodyGrows(messages, k + 1, n); }
  }

  datatype Outcome = Delivered(body: Bytes) | Oversized | Dropped | Waiting

  /** What becomes of a stream of messages. */
  ghost predicate Settles(messages: seq<Message>, limit: nat, outcome: Outcome) {
    match outcome
    case Delivered(body) =>
      exists n: nat :: CompletesAt(messages, n) && body == Body(messages[..n + 1]) && |body| <= limit
    case Oversized => exists n: nat :: OverflowsAt(messages, n, limit)
    case Dropped => exists n: nat :: DisconnectsAt(messages, n) && |Body(messages[..n])| <= limit
    case Waiting => Buffering(messages, |messages|, limit)
  }

  /** The buffering loop over the messages received so far. */
  method BufferBody(messages: seq<Message>, maxBytes: nat) returns (outcome: Outcome)
    ensures Settles(messages, maxBytes, outcome)
  {
    var body: Bytes := [];
    var moreBody, n := true, 0;
    while moreBody
      invariant n <= |messages|
      invariant moreBody ==> Buffering(messages, n, maxBytes)
      invariant !moreBody ==> n > 0 && CompletesAt(messages, n - 1) && |body| <= maxBytes
      invariant body == Body(messages[..n])
      decreases |messages| - n, moreBody
    {
      if n == |messages| { return Waiting; }
      var message := messages[n];
      assert messages[..n + 1][..n] == messages[..n];
      if message.Disconnect? {
        assert DisconnectsAt(messages, n);
        return Dropped;
      }
      n := n + 1;
      if message.Chunk? {
        if |body| + |message.body| > maxBytes {
          assert OverflowsAt(messages, n - 1, maxBytes);
          return Oversized;
        }
        body := body + message.body;
        moreBody := message.more;
      }
    }
    outcome := Delivered(body);
  }

  /** The one message that decides a stream: the first that completes, disconnects or overflows it. */
  ghost predicate DecidesAt(messages: seq<Message>, limit: nat, n: nat) {
    Buffering(messages, n, limit)
    && (CompletesAt(messages, n) || DisconnectsAt(messages, n) || OverflowsAt(messages, n, limit))
  }

  function Decision(messages: seq<Message>, limit: nat, n: nat): Outcome
    requires n < |messages|
  {
    if |Body(messages[..n + 1])| > limit then Oversized
    else if messages[n].Disconnect? then Dropped
    else Delivered(Body(messages[..n + 1]))
  }

  lemma {:induction false} FirstOverflow(messages: seq<Message>, limit: nat, n: nat) returns (first: nat)
    requires OverflowsAt(messages, n, limit)
    ensures OverflowsAt(messages, first, limit) && Buffering(messages, first, limit)
  {
    if |Body(messages[..n])| <= limit {
      first := n;
    } else {
      assert n > 0;
      first := FirstOverflow(messages, limit, n - 1);
    }
  }

  lemma DecidingMessage(messages: seq<Message>, limit: nat, outcome: Outcome) returns (n: nat)
    requires Settles(messages, limit, outcome) && !outcome.Waiting?
    ensures DecidesAt(messages, limit, n) && outcome == Decision(messages, limit, n)
  {
    match outcome {
      case Delivered(body) =>
        n :| CompletesAt(messages, n) && body == Body(messages[..n + 1]) && |body| <= limit;
        BodyGrows(messages, n, n + 1);
      case Oversized =>
        var k: nat :| OverflowsAt(messages, k, limit);
        n := FirstOverflow(messages, limit, k);
      case Dropped =>
        n :| DisconnectsAt(messages, n) && |Body(messages[..n])| <= limit;
        assert messages[..n + 1][..n] == messages[..n];
    }
  }

  /** A stream settles in one way only, so the loop's answer is the answer: the application receives
      exactly the concatenated chunks if and only if the stream completes without a disconnect and they
      fit the limit. */
  lemma SettlesOnce(messages: seq<Message>, limit: nat, a: Outcome, b: Outcome)
    requires Settles(messages, limit, a) && Settles(messages, limit, b)
    ensures a == b
  {
    if a.Waiting? || b.Waiting? { NothingDecidedBefore(messages, |messages|, limit); }
    if !a.Waiting? {
      var m := DecidingMessage(messages, limit, a);
      NothingDecidedBefore(messages, m, limit);
      if !b.Waiting? {
        var n := DecidingMessage(messages, limit, b);
        NothingDecidedBefore(messages, n, limit);
      }
    } else if !b.Waiting? {
      var n := DecidingMessage(messages, limit, b);
    }
  }

  function Joined(chunks: seq<Bytes>): Bytes {
    if chunks == [] then [] else chunks[0] + Joined(chunks[1..])
  }

  /** A body sent in these chunks, the last of which ends it. */
  function Sent(chunks: seq<Bytes>): (messages: seq<Message>)
    ensures |messages| == |chunks|
  {
    seq(|chunks|, i requires 0 <= i < |chunks| => Chunk(chunks[i], i < |chunks| - 1))
  }

  lemma {:induction false} BodyOfSent(chunks: seq<Bytes>)
    requires chunks != []
    ensures Body(Sent(chunks)) == Joined(chunks)
  {
    var (first, rest) := (Chunk(chunks[0], 1 < |chunks|), chunks[1..]);
    BodyInOrder([first], Sent(rest));
    assert Sent(chunks) == [first] + Sent(rest);
    if rest != [] { BodyOfSent(rest); }
  }

  /** A body sent in chunks, however it is cut up, settles as delivered whole or, past the limit, as oversized. */
  lemma SentSettles(chunks: seq<Bytes>, limit: nat)
    requires chunks != []
    ensures Settles(Sent(chunks), limit, if |Joined(chunks)| <= limit then Delivered(Joined(chunks)) else Oversized)
  {
    var (messages, last) := (Sent(chunks), |chunks| - 1);
    BodyOfSent(chunks);
    assert messages[..last + 1] == messages;
    assert CompletesAt(messages, last);
    if |Joined(chunks)| > limit { assert OverflowsAt(messages, last, limit); }
  }

  datatype Response = Rejected400 | Rejected413 | Forwarded(body: Bytes) | NoResponse

  /** The whole middleware call on an HTTP request: the headers decide first, then the body. */
  method Handle(headers: seq<Header>, messages: seq<Message>, maxBytes: nat) returns (response: Response)
    ensures response.Rejected400? <==> Ambiguous(headers)
    ensures response.Rejected413? <==>
              && !Ambiguous(headers)
              && (DeclaresMoreThan(headers, maxBytes) || Settles(messages, maxBytes, Oversized))
    ensures forall body :: response == Forwarded(body) <==>
              && !Ambiguous(headers) && !DeclaresMoreThan(headers, maxBytes)
              && Settles(messages, maxBytes, Delivered(body))
    ensures forall chunks :: chunks != [] && messages == Sent(chunks) && !Ambiguous(headers) ==>
              response == if DeclaresMoreThan(headers, maxBytes) || |Joined(chunks)| > maxBytes then Rejected413
                          else Forwarded(Joined(chunks))
  {
    forall chunks | chunks != [] && messages == Sent(chunks)
      ensures Settles(messages, maxBytes,
                      if |Joined(chunks)| <= maxBytes then Delivered(Joined(chunks)) else Oversized)
    {
      SentSettles(chunks, maxBytes);
    }
    var verdict := CheckHeaders(headers, maxBytes);
    if verdict.BadRequest? { return Rejected400; }
    if verdict.TooLarge? { return Rejected413; }
    var outcome := BufferBody(messages, maxBytes);
    forall other | Settles(messages, maxBytes, other) ensures other == outcome {
      SettlesOnce(messages, maxBytes, outcome, other);
    }
    match outcome {
      case Delivered(body) => response := Forwarded(body);
      case Oversized => response := Rejected413;
      case Dropped => response := NoResponse;
      case Waiting => response := NoResponse;
    }
  }
}

/**
  How many SMS segments a text is billed (communications/campaigns.py), with the GSM 7-bit default
  alphabet and its extension table (sections 6.2.1 and 6.2.1.1 of 3GPP TS 23.038) and UCS2 (section 6.2.3).
  */
module Segments {
  import opened Text

  const SINGLE_GSM := 160
  const PART_GSM := 153
  const SINGLE_UCS2 := 70
  const PART_UCS2 := 67

  predicate IsBasic(c: char) {
    || 'a' <= c <= 'z' || '@' <= c <= 'Z' || '%' <= c <= '?' || ' ' <= c <= '$' || c == '_'
    || c == '\n' || c == '\r' || c == '\U{1b}'
    || c == '\U{a1}' || '\U{a3}' <= c <= '\U{a5}' || c == '\U{a7}' || c == '\U{bf}'
    || '\U{c4}' <= c <= '\U{c7}' || c == '\U{c9}' || c == '\U{d1}' || c == '\U{d6}' || c == '\U{d8}' || c == '\U{dc}'
    || c == '\U{df}' || c == '\U{e0}' || '\U{e4}' <= c <= '\U{e6}' || c == '\U{e8}' || c == '\U{e9}'
    || c == '\U{ec}' || c == '\U{f1}' || c == '\U{f2}' || c == '\U{f6}' || '\U{f8}' <= c <= '\U{f9}' || c == '\U{fc}'
    || c == '\U{393}' || c == '\U{394}' || c == '\U{398}' || c == '\U{39b}' || c == '\U{39e}'
    || c == '\U{3a0}' || c == '\U{3a3}' || c == '\U{3a6}' || c == '\U{3a8}' || c == '\U{3a9}'
  }

  predicate IsExtended(c: char) {
    c in {'^', '{', '}', '\\', '[', '~', ']', '|', '\U{20ac}', '\U{0c}'}
  }

  predicate IsGsm(s: string) {
    forall c :: c in s ==> IsBasic(c) || IsExtended(c)
  }

  function GsmWeight(c: char): nat { if IsBasic(c) then 1 else 2 }

  /** Characters outside the Basic Multilingual Plane take a surrogate pair. */
  function Ucs2Weight(c: char): nat { if c < '\U{10000}' then 1 else 2 }

  function GsmUnits(s: string): nat {
    if s == [] then 0 else GsmUnits(s[..|s| - 1]) + GsmWeight(s[|s| - 1])
  }

  function Ucs2Units(s: string): nat {
    if s == [] then 0 else Ucs2Units(s[..|s| - 1]) + Ucs2Weight(s[|s| - 1])
  }

  function CeilDiv(a: nat, b: nat): nat
    requires 0 < b
  {
    (a + b - 1) / b
  }

  function Parts(units: nat, single: nat, part: nat): nat
    requires 0 < part
  {
    if units <= single then 1 else CeilDiv(units, part)
  }

  function SegmentCount(body: string): nat {
    if IsGsm(body) then Parts(GsmUnits(body), SINGLE_GSM, PART_GSM)
    else Parts(Ucs2Units(body), SINGLE_UCS2, PART_UCS2)
  }

  /** One pass that leaves at the first character outside both tables. */
  method CountSegments(body: string) returns (count: nat)
    ensures count == SegmentCount(body)
  {
    var gsmUnits := 0;
    for i := 0 to |body|
      invariant IsGsm(body[..i])
      invariant gsmUnits == GsmUnits(body[..i])
    {
      assert body[..i + 1] == body[..i] + [body[i]];
      assert body[..i + 1][..i] == body[..i];
      if IsBasic(body[i]) {
        gsmUnits := gsmUnits + 1;
      } else if IsExtended(body[i]) {
        gsmUnits := gsmUnits + 2;
      } else {
        assert body[i] in body;
        var units := Ucs2Units(body);
        return if units <= SINGLE_UCS2 then 1 else CeilDiv(units, PART_UCS2);
      }
    }
    assert body[..|body|] == body;
    count := if gsmUnits <= SINGLE_GSM then 1 else CeilDiv(gsmUnits, PART_GSM);
  }

  // ---- The count is the least number of parts that fits ----

  function Capacity(parts: nat, single: nat, part: nat): nat {
    if parts == 1 then single else parts * part
  }

  lemma PartsAreLeast(units: nat, single: nat, part: nat)
    requires 0 < part <= single
    ensures var n := Parts(units, single, part);
            && 1 <= n && units <= Capacity(n, single, part)
            && forall fewer: nat :: 1 <= fewer < n ==> units > Capacity(fewer, single, part)
  {
    var n := Parts(units, single, part);
    if units > single {
      var a := units + part - 1;
      assert a == part * (a / part) + a % part;
      assert part * n == n * part;
      forall fewer: nat | 1 <= fewer < n
        ensures units > Capacity(fewer, single, part)
      {
        Multiples(fewer, n, part);
      }
    }
  }

  lemma Multiples(a: nat, b: nat, part: nat)
    requires a < b
    ensures a * part + part <= b * part
  {
    assert b * part == a * part + (b - a) * part;
    assert (b - a) * part == part + (b - a - 1) * part;
  }

  lemma PartsMonotone(units: nat, more: nat, single: nat, part: nat)
    requires 0 < part <= single && units <= more
    ensures Parts(units, single, part) <= Parts(more, single, part)
  {
    PartsAreLeast(units, single, part);
    PartsAreLeast(more, single, part);
  }

  // ---- Appending text never lowers the count ----

  lemma {:induction false} UnitsOfConcat(a: string, b: string)
    ensures GsmUnits(a + b) == GsmUnits(a) + GsmUnits(b)
    ensures Ucs2Units(a + b) == Ucs2Units(a) + Ucs2Units(b)
  {
    if b == [] {
      assert a + b == a;
    } else {
      assert (a + b)[..|a + b| - 1] == a + b[..|b| - 1];
      UnitsOfConcat(a, b[..|b| - 1]);
    }
  }

  lemma {:induction false} UnitsPerCharacter(s: string)
    ensures GsmUnits(s) <= 2 * |s|
    ensures |s| <= Ucs2Units(s)
  {
    if s != [] {
      UnitsPerCharacter(s[..|s| - 1]);
    }
  }

  lemma AppendingNeverLowers(a: string, b: string)
    ensures SegmentCount(a) <= SegmentCount(a + b)
  {
    UnitsOfConcat(a, b);
    UnitsPerCharacter(a);
    UnitsPerCharacter(b);
    if IsGsm(a + b) {
      assert forall c :: c in a ==> c in a + b;
      PartsMonotone(GsmUnits(a), GsmUnits(a + b), SINGLE_GSM, PART_GSM);
    } else if IsGsm(a) {
      assert b == [] ==> a + b == a;
    } else {
      var c :| c in a && !IsBasic(c) && !IsExtended(c);
      assert c in a + b;
      PartsMonotone(Ucs2Units(a), Ucs2Units(a + b), SINGLE_UCS2, PART_UCS2);
    }
  }

  // ---- The estimate made before the unsubscribe tokens exist ----

  const TOKEN_LENGTH := 43
  const SCHEME := "https://"
  const PATH := "/communications/unsubscribe/"
  const STOP := "\n\nStop messages: "

  function UnsubscribeUrl(hostname: string, token: string): string {
    SCHEME + hostname + PATH + token + "/"
  }

  /** The SMS form of `_marketing_body`. */
  function SmsBody(body: string, url: string): string {
    RightStrip(body) + STOP + url
  }

  function Repeated(c: char, n: nat): (s: string)
    ensures |s| == n
  {
    seq(n, _ => c)
  }

  function BodyForEstimate(body: string, hostname: string): string {
    SmsBody(body, Repeated('x', |UnsubscribeUrl(hostname, Repeated('x', TOKEN_LENGTH))|))
  }

  predicate AllBasic(s: string) {
    forall k :: 0 <= k < |s| ==> IsBasic(s[k])
  }

  /** A character of an URL-safe base64 token. */
  predicate IsTokenChar(c: char) {
    'a' <= c <= 'z' || 'A' <= c <= 'Z' || '0' <= c <= '9' || c == '-' || c == '_'
  }

  predicate IsToken(s: string) {
    |s| == TOKEN_LENGTH && forall k :: 0 <= k < |s| ==> IsTokenChar(s[k])
  }

  lemma {:induction false} BasicUnits(s: string)
    requires AllBasic(s)
    ensures GsmUnits(s) == |s| && Ucs2Units(s) == |s|
  {
    if s != [] {
      BasicUnits(s[..|s| - 1]);
    }
  }

  /** The count of a text that ends in basic characters depends only on how many there are. */
  lemma BasicTailsCountAlike(start: string, a: string, b: string)
    requires AllBasic(a) && AllBasic(b) && |a| == |b|
    ensures SegmentCount(start + a) == SegmentCount(start + b)
  {
    UnitsOfConcat(start, a);
    UnitsOfConcat(start, b);
    BasicUnits(a);
    BasicUnits(b);
  }

  /** For a host name in the basic alphabet, the estimate is the count of the text actually sent, whatever the token. */
  lemma EstimateIsExact(body: string, hostname: string, token: string)
    requires AllBasic(hostname) && IsToken(token)
    ensures SegmentCount(SmsBody(body, UnsubscribeUrl(hostname, token)))
            == SegmentCount(BodyForEstimate(body, hostname))
  {
    var url := UnsubscribeUrl(hostname, token);
    var placeholder := Repeated('x', |UnsubscribeUrl(hostname, Repeated('x', TOKEN_LENGTH))|);
    assert AllBasic(url);
    BasicTailsCountAlike(RightStrip(body) + STOP, url, placeholder);
  }

  lemma EstimatedAtOne(text: string)
    requires AllBasic(text) && |text| <= SINGLE_GSM
    ensures SegmentCount(text) == 1
  {
    BasicUnits(text);
  }

  // ---- Exactly which host names the estimate is right for ----

  function Placeholder(host: string): string {
    Repeated('x', |UnsubscribeUrl(host, Repeated('x', TOKEN_LENGTH))|)
  }

  lemma {:induction false} UnitsAtLeastLength(s: string)
    ensures |s| <= GsmUnits(s) && (!AllBasic(s) ==> |s| < GsmUnits(s))
  {
    if s != [] {
      UnitsAtLeastLength(s[..|s| - 1]);
    }
  }

  function Tail(token: string): string { PATH + token + "/" }

  lemma UrlParts(host: string, token: string)
    requires IsToken(token)
    ensures UnsubscribeUrl(host, token) == SCHEME + host + Tail(token)
    ensures AllBasic(SCHEME) && |SCHEME| == 8 && AllBasic(Tail(token)) && |Tail(token)| == 72
  {
    assert UnsubscribeUrl(host, token) == SCHEME + host + Tail(token);
  }

  /** What a host name between basic characters adds to a text. */
  lemma HostInside(start: string, scheme: string, host: string, tail: string)
    requires AllBasic(scheme) && |scheme| == 8 && AllBasic(tail) && |tail| == 72
    ensures var text := start + (scheme + host + tail);
            && GsmUnits(text) == GsmUnits(start) + 80 + GsmUnits(host)
            && Ucs2Units(text) == Ucs2Units(start) + 80 + Ucs2Units(host)
            && (IsGsm(text) <==> IsGsm(start) && IsGsm(host))
  {
    UnitsOfConcat(start, scheme + host + tail);
    UnitsOfConcat(scheme + host, tail);
    UnitsOfConcat(scheme, host);
    BasicUnits(tail);
    BasicUnits(scheme);
    assert forall c :: c in start + (scheme + host + tail) <==> c in start || c in scheme || c in host || c in tail;
  }

  /** The text sent and the text estimated differ only where the host name stands. */
  ghost predicate Aligned(start: string, host: string, sent: string, estimated: string) {
    && GsmUnits(estimated) == GsmUnits(start) + 80 + |host|
    && Ucs2Units(estimated) == Ucs2Units(start) + 80 + |host|
    && GsmUnits(sent) == GsmUnits(start) + 80 + GsmUnits(host)
    && Ucs2Units(sent) == Ucs2Units(start) + 80 + Ucs2Units(host)
    && (IsGsm(estimated) <==> IsGsm(start))
    && (IsGsm(sent) <==> IsGsm(start) && IsGsm(host))
  }

  function Start(body: string): string { RightStrip(body) + STOP }

  lemma TextsAlign(body: string, host: string, token: string)
    requires IsToken(token)
    ensures Aligned(Start(body), host, SmsBody(body, UnsubscribeUrl(host, token)), BodyForEstimate(body, host))
  {
    UrlParts(host, token);
    HostInside(Start(body), SCHEME, host, Tail(token));
    UnitsOfConcat(Start(body), Placeholder(host));
    BasicUnits(Placeholder(host));
  }

  lemma StartOfBasic(body: string)
    requires AllBasic(body) && (body == [] || body[|body| - 1] == 'a')
    ensures GsmUnits(Start(body)) == Ucs2Units(Start(body)) == |body| + 17 && IsGsm(Start(body))
  {
    assert RightStrip(body) == body;
    assert AllBasic(STOP) && |STOP| == 17;
    BasicUnits(body + STOP);
  }

  /** Whatever the host name, the estimate is never too high. */
  lemma EstimateIsNeverTooHigh(body: string, host: string, token: string)
    requires IsToken(token)
    ensures SegmentCount(BodyForEstimate(body, host)) <= SegmentCount(SmsBody(body, UnsubscribeUrl(host, token)))
  {
    TextsAlign(body, host, token);
    var start := Start(body);
    UnitsAtLeastLength(host);
    UnitsPerCharacter(host);
    UnitsPerCharacter(start);
    if IsGsm(start) && IsGsm(host) {
      PartsMonotone(GsmUnits(start) + 80 + |host|, GsmUnits(start) + 80 + GsmUnits(host), SINGLE_GSM, PART_GSM);
    } else if IsGsm(start) {
    } else {
      PartsMonotone(Ucs2Units(start) + 80 + |host|, Ucs2Units(start) + 80 + Ucs2Units(host), SINGLE_UCS2, PART_UCS2);
    }
  }

  /** A host name with a character outside both tables: already an empty body costs more than estimated. */
  lemma ForeignHostUnderestimated(host: string, token: string)
    requires IsToken(token) && !IsGsm(host)
    ensures SegmentCount(BodyForEstimate("", host)) < SegmentCount(SmsBody("", UnsubscribeUrl(host, token)))
  {
    TextsAlign("", host, token);
    UnitsPerCharacter(host);
    StartOfBasic("");
    assert host != [];
  }

  /** A body that fills the last part to the brim. */
  function Brimming(host: string): string {
    var length := 97 + |host|;
    Repeated('a', if length <= SINGLE_GSM then SINGLE_GSM - length else CeilDiv(length, PART_GSM) * PART_GSM - length)
  }

  /** A host name with a character of the extension table only: the body that just fits does not. */
  lemma ExtendedHostUnderestimated(host: string, token: string)
    requires IsToken(token) && IsGsm(host) && !AllBasic(host)
    ensures SegmentCount(BodyForEstimate(Brimming(host), host))
            < SegmentCount(SmsBody(Brimming(host), UnsubscribeUrl(host, token)))
  {
    var body := Brimming(host);
    TextsAlign(body, host, token);
    UnitsAtLeastLength(host);
    StartOfBasic(body);
  }

  const SOME_TOKEN: string := Repeated('x', TOKEN_LENGTH)

  /** The estimate is what is billed, for every body and every token, if and only if the host name is in the basic alphabet. */
  lemma EstimateNeedsBasicHost(host: string)
    ensures (forall body, token :: IsToken(token) ==>
               SegmentCount(SmsBody(body, UnsubscribeUrl(host, token))) == SegmentCount(BodyForEstimate(body, host)))
            <==> AllBasic(host)
  {
    assert IsToken(SOME_TOKEN);
    if AllBasic(host) {
      forall body, token | IsToken(token)
        ensures SegmentCount(SmsBody(body, UnsubscribeUrl(host, token))) == SegmentCount(BodyForEstimate(body, host))
      {
        EstimateIsExact(body, host, token);
      }
    } else if IsGsm(host) {
      ExtendedHostUnderestimated(host, SOME_TOKEN);
    } else {
      ForeignHostUnderestimated(host, SOME_TOKEN);
    }
  }

  lemma ShortBodyEstimate(body: string, host: string)
    requires AllBasic(body) && (body == [] || body[|body| - 1] == 'a') && |body| + |host| + 97 <= SINGLE_GSM
    ensures SegmentCount(BodyForEstimate(body, host)) == 1
  {
    assert IsToken(SOME_TOKEN);
    TextsAlign(body, host, SOME_TOKEN);
    StartOfBasic(body);
  }

  // ---- Test sends ----

  const TEST_CHARGED := "TEST: "
  const TEST_SENT := "TEST MESSAGE\n\n"

  function ChargedTest(body: string): string { TEST_CHARGED + body }

  function SentTest(body: string): string { TEST_SENT + body }

  lemma TestPrefixes()
    ensures AllBasic(TEST_CHARGED) && |TEST_CHARGED| == 6
    ensures AllBasic(TEST_SENT) && |TEST_SENT| == 14
  {
  }

  lemma AfterBasic(start: string, body: string)
    requires AllBasic(start)
    ensures GsmUnits(start + body) == |start| + GsmUnits(body)
    ensures Ucs2Units(start + body) == |start| + Ucs2Units(body)
    ensures IsGsm(start + body) <==> IsGsm(body)
  {
    UnitsOfConcat(start, body);
    BasicUnits(start);
    assert forall c :: c in start + body <==> c in start || c in body;
  }

  /** Eight more units start a new part. */
  predicate EightSpillOver(units: nat, single: nat, part: nat)
    requires 0 < part
  {
    if units <= single then units + 8 > single else (units - 1) % part >= part - 8
  }

  /** A test is charged for a shorter text than is sent: too little if and only if the eight characters between them start a new part. */
  lemma TestUndercountedExactly(body: string)
    ensures SegmentCount(ChargedTest(body)) <= SegmentCount(SentTest(body))
    ensures SegmentCount(ChargedTest(body)) < SegmentCount(SentTest(body))
            <==> if IsGsm(body) then EightSpillOver(6 + GsmUnits(body), SINGLE_GSM, PART_GSM)
                 else EightSpillOver(6 + Ucs2Units(body), SINGLE_UCS2, PART_UCS2)
  {
    TestPrefixes();
    AfterBasic(TEST_CHARGED, body);
    AfterBasic(TEST_SENT, body);
  }

  /** Up to 160 characters are charged as one segment; eight more are sent. */
  lemma LongTestUndercounted()
    ensures var body := Repeated('a', 147);
            SegmentCount(ChargedTest(body)) == 1 && SegmentCount(SentTest(body)) == 2
  {
    var body := Repeated('a', 147);
    TestPrefixes();
    AfterBasic(TEST_CHARGED, body);
    AfterBasic(TEST_SENT, body);
    BasicUnits(body);
  }
}

/** PEM text and its base64 body: `pemToBase64`, `base64ToPem` and the part of a PEM
    that `getFingerprintFromPem` hashes. Works on concrete strings. */
module Pem {
  import opened OrderedMap

  const HEADER := "-----BEGIN PUBLIC KEY-----"
  const FOOTER := "-----END PUBLIC KEY-----"
  const LINE_LENGTH := 64

  /** White space as `String.prototype.trim` sees it, up to the rarer Unicode spaces. */
  predicate IsSpace(c: char) {
    c == ' ' || '\t' <= c <= '\r' || c as int == 0xA0 || c as int == 0xFEFF
  }

  predicate IsBase64Char(c: char) {
    'A' <= c <= 'Z' || 'a' <= c <= 'z' || '0' <= c <= '9' || c == '+' || c == '/' || c == '='
  }

  predicate IsBase64(s: string) {
    forall c | c in s :: IsBase64Char(c)
  }

  predicate AllSpace(s: string) {
    forall c | c in s :: IsSpace(c)
  }

  /** `.` in a regular expression stops at these. */
  predicate IsLineTerminator(c: char) {
    c == '\n' || c == '\r' || c as int == 0x2028 || c as int == 0x2029
  }

  /** `s.replace(/pattern/, '')` without the `g` flag. */
  function RemoveFirst(s: string, pattern: string): string {
    if pattern <= s then s[|pattern|..]
    else if s == "" then ""
    else [s[0]] + RemoveFirst(s[1..], pattern)
  }

  /** `s.replace(/\r?\n/g, '')`: a carriage return alone stays. */
  function StripNewlines(s: string): string {
    if s == "" then ""
    else if s[0] == '\n' then StripNewlines(s[1..])
    else if s[0] == '\r' && |s| > 1 && s[1] == '\n' then StripNewlines(s[2..])
    else [s[0]] + StripNewlines(s[1..])
  }

  function TrimStart(s: string): string {
    if s != "" && IsSpace(s[0]) then TrimStart(s[1..]) else s
  }

  function TrimEnd(s: string): string {
    if s != "" && IsSpace(s[|s| - 1]) then TrimEnd(s[..|s| - 1]) else s
  }

  function Trim(s: string): string {
    TrimEnd(TrimStart(s))
  }

  function PemToBase64(pem: string): string {
    Trim(StripNewlines(RemoveFirst(RemoveFirst(pem, HEADER), FOOTER)))
  }

  /** How many characters `.{1,limit}` takes at the start of s. */
  function DotRun(s: string, limit: nat): (n: nat)
    ensures n <= limit && n <= |s|
    ensures forall i | 0 <= i < n :: !IsLineTerminator(s[i])
    ensures n == limit || n == |s| || IsLineTerminator(s[n])
    decreases limit
  {
    if limit == 0 || s == "" || IsLineTerminator(s[0]) then 0 else 1 + DotRun(s[1..], limit - 1)
  }

  /** `s.match(/.{1,64}/g) || []` */
  function Chunks(s: string): (lines: seq<string>) {
    if s == "" then []
    else
      var n := DotRun(s, LINE_LENGTH);
      if n == 0 then Chunks(s[1..]) else [s[..n]] + Chunks(s[n..])
  }

  function JoinLines(lines: seq<string>): string {
    if lines == [] then ""
    else if |lines| == 1 then lines[0]
    else lines[0] + "\n" + JoinLines(lines[1..])
  }

  function Base64ToPem(base64: string): string {
    Layout(Chunks(base64))
  }

  /** The line layout of sections 2 and 13 of RFC 7468 for a public key:
      every body line but the last has exactly 64 characters, the last between 1 and 64. */
  predicate StrictLines(lines: seq<string>) {
    && (forall i | 0 <= i < |lines| :: IsBase64(lines[i]) && 1 <= |lines[i]| <= LINE_LENGTH)
    && (forall i | 0 <= i < |lines| - 1 :: |lines[i]| == LINE_LENGTH)
  }

  function Layout(lines: seq<string>): string {
    JoinLines([HEADER] + lines + [FOOTER])
  }

  function Concat(lines: seq<string>): string {
    if lines == [] then "" else lines[0] + Concat(lines[1..])
  }

  /** The key inside a public-key PEM, named by its base64 DER; None where the crypto library
      rejects the text. Line breaks and surrounding space do not matter. */
  function KeyOf(pem: string): Option<string> {
    var core := Trim(pem);
    if HEADER <= core && |core| >= |HEADER| + |FOOTER| && core[|core| - |FOOTER|..] == FOOTER then
      var body := StripNewlines(core[|HEADER|..|core| - |FOOTER|]);
      if body != "" && IsBase64(body) then Some(body) else None
    else None
  }

  // ---------- helper lemmas ----------

  lemma {:induction false} RemoveFirstAfter(before: string, pattern: string, after: string)
    requires pattern != "" && pattern[0] !in before
    ensures RemoveFirst(before + pattern + after, pattern) == before + after
  {
    var s := before + pattern + after;
    if before == "" {
      assert s == pattern + after;
    } else {
      assert s[0] == before[0] != pattern[0];
      assert s[1..] == before[1..] + pattern + after;
      RemoveFirstAfter(before[1..], pattern, after);
    }
  }

  lemma {:induction false} StripConcat(a: string, b: string)
    requires a == "" || a[|a| - 1] != '\r'
    ensures StripNewlines(a + b) == StripNewlines(a) + StripNewlines(b)
    decreases |a|
  {
    if a == "" {
      assert a + b == b;
    } else if a[0] == '\r' && |a| > 1 && a[1] == '\n' {
      assert (a + b)[2..] == a[2..] + b;
      StripConcat(a[2..], b);
    } else {
      assert (a + b)[1..] == a[1..] + b;
      StripConcat(a[1..], b);
    }
  }

  lemma {:induction false} StripBase64(s: string)
    requires IsBase64(s)
    ensures StripNewlines(s) == s
  {
    if s != "" {
      assert s[0] in s;
      StripBase64(s[1..]);
    }
  }

  lemma {:induction false} StripLast(s: string)
    requires s != "" && s[|s| - 1] == '\r'
    ensures '\r' in StripNewlines(s)
    decreases |s|
  {
    if |s| == 1 {
      assert StripNewlines(s) == s;
    } else if s[0] == '\r' && s[1] == '\n' {
      StripLast(s[2..]);
    } else {
      StripLast(s[1..]);
    }
  }

  /** Leading white space turns into leading white space. */
  lemma {:induction false} StripLead(space: string, rest: string) returns (lead: string)
    requires AllSpace(space)
    ensures AllSpace(lead) && StripNewlines(space + rest) == lead + StripNewlines(rest)
    decreases |space|
  {
    var s := space + rest;
    if space == "" {
      lead := "";
      assert s == rest;
    } else if space[0] == '\n' {
      assert s[1..] == space[1..] + rest;
      lead := StripLead(space[1..], rest);
    } else if space[0] == '\r' && |s| > 1 && s[1] == '\n' {
      if |space| == 1 {
        assert s[2..] == rest[1..];
        lead := "";
      } else {
        assert s[2..] == space[2..] + rest;
        lead := StripLead(space[2..], rest);
      }
    } else {
      assert s[1..] == space[1..] + rest;
      assert space[0] in space;
      lead := StripLead(space[1..], rest);
      lead := [space[0]] + lead;
    }
  }

  lemma {:induction false} StripSpace(s: string)
    requires AllSpace(s)
    ensures AllSpace(StripNewlines(s))
  {
    var lead := StripLead(s, "");
    assert s + "" == s;
  }

  lemma {:induction false} TrimStartLead(space: string, rest: string)
    requires AllSpace(space) && (rest == "" || !IsSpace(rest[0]))
    ensures TrimStart(space + rest) == rest
  {
    if space == "" {
      assert space + rest == rest;
    } else {
      assert space[0] in space && (space + rest)[1..] == space[1..] + rest;
      TrimStartLead(space[1..], rest);
    }
  }

  lemma {:induction false} TrimEndTail(rest: string, space: string)
    requires AllSpace(space) && (rest == "" || !IsSpace(rest[|rest| - 1]))
    ensures TrimEnd(rest + space) == rest
    decreases |space|
  {
    if space == "" {
      assert rest + space == rest;
    } else {
      var n := |space| - 1;
      assert space[n] in space && (rest + space)[..|rest + space| - 1] == rest + space[..n];
      TrimEndTail(rest, space[..n]);
    }
  }

  lemma TrimAround(lead: string, body: string, tail: string)
    requires AllSpace(lead) && AllSpace(tail)
    requires body != "" && !IsSpace(body[0]) && !IsSpace(body[|body| - 1])
    ensures Trim(lead + body + tail) == body
  {
    assert lead + body + tail == lead + (body + tail);
    TrimStartLead(lead, body + tail);
    TrimEndTail(body, tail);
  }

  lemma {:induction false} TrimAllSpace(s: string)
    requires AllSpace(s)
    ensures Trim(s) == ""
  {
    assert s + "" == s;
    TrimStartLead(s, "");
  }

  /** What trim removes is white space at the two ends. */
  lemma {:induction false} TrimStartParts(s: string) returns (lead: string)
    ensures AllSpace(lead) && s == lead + TrimStart(s)
  {
    if s != "" && IsSpace(s[0]) {
      var l := TrimStartParts(s[1..]);
      lead := [s[0]] + l;
      assert s == [s[0]] + s[1..];
    } else {
      lead := "";
    }
  }

  lemma {:induction false} TrimEndParts(s: string) returns (tail: string)
    ensures AllSpace(tail) && s == TrimEnd(s) + tail
    decreases |s|
  {
    if s != "" && IsSpace(s[|s| - 1]) {
      var t := TrimEndParts(s[..|s| - 1]);
      tail := t + [s[|s| - 1]];
      assert s == s[..|s| - 1] + [s[|s| - 1]];
    } else {
      tail := "";
      assert s == s + "";
    }
  }

  lemma NotSpace(s: string)
    requires IsBase64(s)
    ensures forall c | c in s :: !IsSpace(c) && !IsLineTerminator(c) && c != '-'
  {
  }

  /** Newlines go, and what was white space around the body still is. */
  lemma StripAround(lead: string, middle: string, tail: string) returns (lead': string, tail': string)
    requires AllSpace(lead) && AllSpace(tail) && '\r' !in StripNewlines(middle)
    ensures AllSpace(lead') && AllSpace(tail')
    ensures StripNewlines(lead + middle + tail) == lead' + StripNewlines(middle) + tail'
  {
    assert lead + middle + tail == lead + (middle + tail);
    lead' := StripLead(lead, middle + tail);
    tail' := StripNewlines(tail);
    StripSpace(tail);
    if middle != "" && middle[|middle| - 1] == '\r' {
      StripLast(middle);
      assert false;
    }
    StripConcat(middle, tail);
    assert lead' + (StripNewlines(middle) + tail') == lead' + StripNewlines(middle) + tail';
  }

  lemma TrimBase64(lead: string, body: string, tail: string)
    requires AllSpace(lead) && AllSpace(tail) && IsBase64(body)
    ensures Trim(lead + body + tail) == body
  {
    if body == "" {
      assert lead + body + tail == lead + tail;
      TrimAllSpace(lead + tail);
    } else {
      NotSpace(body);
      assert body[0] in body && body[|body| - 1] in body;
      TrimAround(lead, body, tail);
    }
  }

  lemma MarkersRemoved(lead: string, header: string, middle: string, footer: string, tail: string)
    requires header != "" && footer != "" && header[0] == footer[0] == '-'
    requires '-' !in lead && '-' !in middle
    ensures RemoveFirst(RemoveFirst(lead + header + middle + footer + tail, header), footer)
         == lead + middle + tail
  {
    assert lead + header + middle + footer + tail == lead + header + (middle + footer + tail);
    RemoveFirstAfter(lead, header, middle + footer + tail);
    assert lead + (middle + footer + tail) == (lead + middle) + footer + tail;
    RemoveFirstAfter(lead + middle, footer, tail);
  }

  lemma PemToBase64Body(lead: string, middle: string, tail: string)
    requires AllSpace(lead) && AllSpace(tail)
    requires IsBase64(StripNewlines(middle)) && '-' !in middle
    ensures PemToBase64(lead + HEADER + middle + FOOTER + tail) == StripNewlines(middle)
  {
    MarkersRemoved(lead, HEADER, middle, FOOTER, tail);
    NotSpace(StripNewlines(middle));
    var lead', tail' := StripAround(lead, middle, tail);
    TrimBase64(lead', StripNewlines(middle), tail');
  }

  lemma {:induction false} StripKeepsOther(s: string, c: char)
    requires c in s && c != '\r' && c != '\n'
    ensures c in StripNewlines(s)
    decreases |s|
  {
    if s[0] == c {
    } else if s[0] == '\r' && |s| > 1 && s[1] == '\n' {
      assert s == s[..2] + s[2..];
      StripKeepsOther(s[2..], c);
    } else {
      StripKeepsOther(s[1..], c);
    }
  }

  lemma FramedParts(core: string, header: string, footer: string)
    requires header <= core && |core| >= |header| + |footer| && core[|core| - |footer|..] == footer
    ensures core == header + core[|header|..|core| - |footer|] + footer
  {
  }

  lemma FramedInside(lead: string, header: string, middle: string, footer: string, tail: string)
    ensures lead + ((header + middle + footer) + tail) == lead + header + middle + footer + tail
  {
  }

  /** The stored base64 of a PEM names the same key as the PEM. */
  lemma PemToBase64OfKey(pem: string)
    requires KeyOf(pem).Some?
    ensures PemToBase64(pem) == KeyOf(pem).value
  {
    var lead := TrimStartParts(pem);
    var tail := TrimEndParts(TrimStart(pem));
    var core := Trim(pem);
    var middle := core[|HEADER|..|core| - |FOOTER|];
    FramedParts(core, HEADER, FOOTER);
    FramedInside(lead, HEADER, middle, FOOTER, tail);
    if '-' in middle {
      StripKeepsOther(middle, '-');
      assert false;
    }
    PemToBase64Body(lead, middle, tail);
  }

  lemma {:induction false} DotRunBase64(s: string, limit: nat)
    requires IsBase64(s)
    ensures DotRun(s, limit) == if |s| < limit then |s| else limit
  {
    NotSpace(s);
    var n := DotRun(s, limit);
    assert n < |s| ==> s[n] in s;
  }

  lemma LineInFront(line: string, rest: seq<string>)
    requires IsBase64(line) && 1 <= |line| <= LINE_LENGTH && StrictLines(rest) && (rest != [] ==> |line| == LINE_LENGTH)
    ensures StrictLines([line] + rest)
  {
    var lines := [line] + rest;
    assert forall i | 1 <= i < |lines| :: lines[i] == rest[i - 1];
  }

  lemma {:induction false} ChunksOfBase64(b: string)
    requires IsBase64(b)
    ensures StrictLines(Chunks(b)) && Concat(Chunks(b)) == b
    decreases |b|
  {
    if b != "" {
      DotRunBase64(b, LINE_LENGTH);
      var n := DotRun(b, LINE_LENGTH);
      ChunksOfBase64(b[n..]);
      assert b == b[..n] + b[n..];
      if n < LINE_LENGTH {
        assert b[n..] == "";
      }
      LineInFront(b[..n], Chunks(b[n..]));
    }
  }

  lemma {:induction false} ConcatBase64(lines: seq<string>)
    requires forall i | 0 <= i < |lines| :: IsBase64(lines[i])
    ensures IsBase64(Concat(lines))
  {
    if lines != [] {
      assert IsBase64(lines[0]);
      ConcatBase64(lines[1..]);
    }
  }

  lemma FirstLine(line: string, rest: string)
    requires IsBase64(line + rest) && 1 <= |line| <= LINE_LENGTH && (rest == "" || |line| == LINE_LENGTH)
    ensures Chunks(line + rest) == [line] + Chunks(rest)
  {
    var b := line + rest;
    DotRunBase64(b, LINE_LENGTH);
    assert b[..|line|] == line && b[|line|..] == rest;
  }

  lemma {:induction false} ChunksOfStrictLines(lines: seq<string>)
    requires StrictLines(lines)
    ensures Chunks(Concat(lines)) == lines
  {
    if lines != [] {
      var rest := lines[1..];
      assert forall i | 0 <= i < |rest| :: rest[i] == lines[i + 1];
      ConcatBase64(lines);
      FirstLine(lines[0], Concat(rest));
      ChunksOfStrictLines(rest);
    }
  }

  /** The part of the joined text between header and footer. */
  function Body(lines: seq<string>): string {
    if lines == [] then "\n" else "\n" + lines[0] + Body(lines[1..])
  }

  lemma {:induction false} JoinAsBody(first: string, lines: seq<string>, last: string)
    ensures JoinLines([first] + lines + [last]) == first + Body(lines) + last
    decreases lines
  {
    var all := [first] + lines + [last];
    if lines == [] {
      assert all == [first, last] && all[1..] == [last];
    } else {
      assert all[1..] == [lines[0]] + lines[1..] + [last];
      JoinAsBody(lines[0], lines[1..], last);
      var body := Body(lines[1..]);
      assert first + "\n" + (lines[0] + body + last) == first + ("\n" + lines[0] + body) + last;
    }
  }

  lemma {:induction false} BodyStripped(lines: seq<string>)
    requires forall i | 0 <= i < |lines| :: IsBase64(lines[i])
    ensures StripNewlines(Body(lines)) == Concat(lines) && '-' !in Body(lines)
  {
    if lines != [] {
      assert IsBase64(lines[0]);
      NotSpace(lines[0]);
      assert lines[0] == "" || lines[0][|lines[0]| - 1] in lines[0];
      var rest := Body(lines[1..]);
      assert Body(lines) == "\n" + (lines[0] + rest);
      StripConcat("\n", lines[0] + rest);
      StripConcat(lines[0], rest);
      StripBase64(lines[0]);
      BodyStripped(lines[1..]);
    }
  }

  lemma PemToBase64Plain(pem: string, middle: string)
    requires pem == HEADER + middle + FOOTER
    requires IsBase64(StripNewlines(middle)) && '-' !in middle
    ensures PemToBase64(pem) == StripNewlines(middle)
  {
    assert pem == "" + HEADER + middle + FOOTER + "";
    PemToBase64Body("", middle, "");
  }

  lemma PemOfLines(lines: seq<string>)
    requires forall i | 0 <= i < |lines| :: IsBase64(lines[i])
    ensures PemToBase64(JoinLines([HEADER] + lines + [FOOTER])) == Concat(lines)
  {
    var pem := JoinLines([HEADER] + lines + [FOOTER]);
    JoinAsBody(HEADER, lines, FOOTER);
    BodyStripped(lines);
    ConcatBase64(lines);
    PemToBase64Plain(pem, Body(lines));
  }

  lemma KeyOfPlain(pem: string, middle: string)
    requires pem == HEADER + middle + FOOTER
    requires IsBase64(StripNewlines(middle)) && StripNewlines(middle) != ""
    ensures KeyOf(pem) == Some(StripNewlines(middle))
  {
    assert Trim(pem) == pem by {
      assert "" + pem + "" == pem;
      TrimAround("", pem, "");
    }
    assert pem[|HEADER|..|pem| - |FOOTER|] == middle;
  }

  lemma PlainPemKey(lines: seq<string>)
    requires forall i | 0 <= i < |lines| :: IsBase64(lines[i])
    requires Concat(lines) != ""
    ensures KeyOf(JoinLines([HEADER] + lines + [FOOTER])) == Some(Concat(lines))
  {
    var pem := JoinLines([HEADER] + lines + [FOOTER]);
    JoinAsBody(HEADER, lines, FOOTER);
    BodyStripped(lines);
    ConcatBase64(lines);
    KeyOfPlain(pem, Body(lines));
  }

  // ---------- main results ----------

  /** base64 to PEM and back is the identity, and the PEM has the strict line layout. */
  lemma Base64RoundTrip(base64: string)
    requires IsBase64(base64)
    ensures PemToBase64(Base64ToPem(base64)) == base64
    ensures StrictLines(Chunks(base64)) && Concat(Chunks(base64)) == base64
  {
    ChunksOfBase64(base64);
    PemOfLines(Chunks(base64));
  }

  /** Conversely a PEM already in the strict layout is reproduced exactly. */
  lemma StrictPemReproduced(lines: seq<string>)
    requires StrictLines(lines)
    ensures Base64ToPem(PemToBase64(Layout(lines))) == Layout(lines)
  {
    PemOfLines(lines);
    ChunksOfStrictLines(lines);
  }

  /** Among PEM texts that hold a key, exactly those in the strict layout survive storage
      character for character. */
  lemma ReproducedExactlyWhenStrict(pem: string)
    requires KeyOf(pem).Some?
    ensures Base64ToPem(PemToBase64(pem)) == pem
       <==> exists lines :: StrictLines(lines) && pem == Layout(lines)
  {
    PemToBase64OfKey(pem);
    ChunksOfBase64(PemToBase64(pem));
    forall lines | StrictLines(lines) && pem == Layout(lines) {
      StrictPemReproduced(lines);
    }
  }

  /** Re-encoding the stored base64 gives a PEM for the same key, whatever the layout of the
      PEM it was taken from. */
  lemma SameKeyAfterStorage(pem: string)
    requires KeyOf(pem).Some?
    ensures KeyOf(Base64ToPem(PemToBase64(pem))) == KeyOf(pem)
  {
    PemToBase64OfKey(pem);
    var b := KeyOf(pem).value;
    ChunksOfBase64(b);
    PlainPemKey(Chunks(b));
  }
}

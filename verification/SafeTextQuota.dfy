/** The private storage quota of safe text, its encoding, and the reserve that keeps the last
    limit marker always storable (runtime/safe_text.go). */
module SafeTextQuota {
  import opened Wrappers
  import opened Utf8
  import opened SafeText

  const MAX_SOURCES := 1024
  const MAX_STORED_CHUNKS := 2048
  const MAX_STORAGE := 1024 * 1024 * 1024
  const MARKER_RESERVE := 512 * 1024
  /** Everything in a manifest besides its preview and chunk list: keys, identifiers, one digest, small numbers. */
  const FRAME_LIMIT := 4096

  datatype Usage = Usage(textBytes: int, storageBytes: int, sourceCount: int, chunkCount: int, sealed: bool)

  predicate ValidUsage(u: Usage) {
    && 0 <= u.textBytes <= MAX_TEXT && 0 <= u.storageBytes <= MAX_STORAGE
    && 0 <= u.sourceCount <= MAX_SOURCES && 0 <= u.chunkCount <= MAX_STORED_CHUNKS
    && (u.sealed ==> u.sourceCount > 0)
  }

  predicate CanStoreComplete(u: Usage, textBytes: int, storageBytes: int, chunks: int) {
    && ValidUsage(u) && !u.sealed && textBytes >= 0 && storageBytes >= textBytes && chunks >= 0
    && u.textBytes <= MAX_TEXT - textBytes && u.storageBytes <= MAX_STORAGE - MARKER_RESERVE - storageBytes
    && u.sourceCount < MAX_SOURCES - 1 && u.chunkCount <= MAX_STORED_CHUNKS - chunks
  }

  // ---- the size of an encoded preview ------------------------------------------------------

  /** The bytes one scalar takes in an encoded JSON string. */
  function EscapedSize(c: Rune): nat {
    if c == 0x22 || c == 0x5C || c == 8 || c == 9 || c == 10 || c == 12 || c == 13 then 2
    else if c < 0x20 || c == 0x3C || c == 0x3E || c == 0x26 || c == 0x2028 || c == 0x2029 then 6
    else |EncodeRune(c)|
  }

  function EncodedSize(s: Runes): nat {
    if s == [] then 0 else EscapedSize(s[0]) + EncodedSize(s[1..])
  }

  /** Escaping is at worst sixfold. */
  lemma {:induction false} SixfoldAtWorst(s: Runes)
    ensures EncodedSize(s) <= 6 * |Encode(s)|
  {
    if s != [] {
      SixfoldAtWorst(s[1..]);
    }
  }

  // ---- capturing one source -------------------------------------------------------------------

  /** One source offered for storage: the size of its text, the number of its chunks, its preview, and the encoded sizes
      of everything else in its complete and incomplete manifests. */
  datatype Offer = Offer(size: nat, chunks: nat, preview: Runes, completeFrame: nat, frame: nat, upstreamIncomplete: bool)

  /** What the splitter and the preview guarantee about an offer. */
  ghost predicate Offered(o: Offer) {
    |Encode(o.preview)| <= MAX_PREVIEW && o.frame <= FRAME_LIMIT && (o.size <= MAX_TEXT ==> o.chunks <= 33)
  }

  datatype Captured = Unchanged | Stored(usage: Usage, complete: bool) | ReserveInvalid | BoundExceeded

  function Capture(u: Usage, o: Offer): Captured {
    if u.sealed then Unchanged
    else
      var encoded := EncodedSize(o.preview) + o.completeFrame;
      if !o.upstreamIncomplete && o.size <= MAX_TEXT && CanStoreComplete(u, o.size, o.size + encoded, o.chunks) then
        Update(u, Usage(u.textBytes + o.size, u.storageBytes + encoded + o.size, u.sourceCount + 1, u.chunkCount + o.chunks, false), true)
      else
        var marker := EncodedSize(o.preview) + o.frame;
        if marker > MARKER_RESERVE || u.sourceCount >= MAX_SOURCES || u.storageBytes > MAX_STORAGE - marker then ReserveInvalid
        else Update(u, Usage(u.textBytes, u.storageBytes + marker, u.sourceCount + 1, u.chunkCount, true), false)
  }

  function Update(prior: Usage, next: Usage, complete: bool): Captured {
    if ValidUsage(next) then Stored(next, complete) else BoundExceeded
  }

  /** While unsealed, one source slot and the marker reserve are still free. */
  predicate Reserved(u: Usage) {
    ValidUsage(u) && (!u.sealed ==> u.sourceCount < MAX_SOURCES && u.storageBytes <= MAX_STORAGE - MARKER_RESERVE)
  }

  /** With the reserve kept, neither error can occur: a source is stored whole, or marked and the usage sealed. */
  lemma CaptureKeepsReserve(u: Usage, o: Offer)
    requires Reserved(u) && Offered(o)
    ensures Capture(u, o) != ReserveInvalid && Capture(u, o) != BoundExceeded
    ensures Capture(u, o) == Unchanged <==> u.sealed
    ensures Capture(u, o).Stored? ==> Reserved(Capture(u, o).usage) && (Capture(u, o).usage.sealed <==> !Capture(u, o).complete)
  {
    SixfoldAtWorst(o.preview);
  }

  function After(u: Usage, o: Offer): Usage {
    if Capture(u, o).Stored? then Capture(u, o).usage else u
  }

  /** The usage after a sequence of offers to a fresh attempt. */
  function Run(offers: seq<Offer>): Usage {
    if offers == [] then Usage(0, 0, 0, 0, false) else After(Run(offers[..|offers| - 1]), offers[|offers| - 1])
  }

  /** In every reachable usage the reserve is kept, so the next capture cannot fail on it. */
  lemma {:induction false} ReserveIsNeverUsedUp(offers: seq<Offer>, next: Offer)
    requires Offered(next) && forall i :: 0 <= i < |offers| ==> Offered(offers[i])
    ensures Reserved(Run(offers)) && Capture(Run(offers), next) != ReserveInvalid && Capture(Run(offers), next) != BoundExceeded
  {
    if offers != [] {
      ReserveIsNeverUsedUp(offers[..|offers| - 1], offers[|offers| - 1]);
      CaptureKeepsReserve(Run(offers[..|offers| - 1]), offers[|offers| - 1]);
    }
    CaptureKeepsReserve(Run(offers), next);
  }

  /** Once sealed, nothing is stored for the attempt again. */
  lemma {:induction false} SealingIsPermanent(offers: seq<Offer>, n: nat)
    requires n <= |offers| && Run(offers[..n]).sealed
    ensures Run(offers) == Run(offers[..n])
  {
    if n < |offers| {
      var front := offers[..|offers| - 1];
      assert front[..n] == offers[..n];
      SealingIsPermanent(front, n);
    } else {
      assert offers[..n] == offers;
    }
  }

  // ---- the quota row ----------------------------------------------------------------------------

  /** The usage row of one attempt, as captures change it. */
  class Quota {
    var usage: Usage

    constructor ()
      ensures usage == Run([]) && Reserved(usage)
    {
      usage := Usage(0, 0, 0, 0, false);
    }

    /** Stores a source whole if it fits with the reserve to spare, and otherwise marks it and seals the row. */
    method CaptureSource(o: Offer) returns (r: Captured)
      requires Reserved(usage) && Offered(o)
      modifies this
      ensures Reserved(usage) && r == Capture(old(usage), o) && usage == After(old(usage), o)
      ensures old(usage.sealed) <==> r == Unchanged
      ensures r.Stored? ==> usage.sourceCount == old(usage.sourceCount) + 1 && (usage.sealed <==> !r.complete)
      ensures r.Stored? && r.complete ==> usage.textBytes == old(usage.textBytes) + o.size && usage.chunkCount == old(usage.chunkCount) + o.chunks
    {
      CaptureKeepsReserve(usage, o);
      if usage.sealed {
        return Unchanged;
      }
      if !o.upstreamIncomplete && o.size <= MAX_TEXT {
        var encoded := EncodedSize(o.preview) + o.completeFrame;
        if CanStoreComplete(usage, o.size, o.size + encoded, o.chunks) {
          r := UpdateUsage(true, o, encoded);
          return;
        }
      }
      var marker := EncodedSize(o.preview) + o.frame;
      if marker > MARKER_RESERVE || usage.sourceCount >= MAX_SOURCES || usage.storageBytes > MAX_STORAGE - marker {
        return ReserveInvalid;
      }
      r := UpdateUsage(false, o, marker);
    }

    method UpdateUsage(complete: bool, o: Offer, manifestBytes: nat) returns (r: Captured)
      modifies this
      ensures var next := Usage(
          old(usage.textBytes) + (if complete then o.size else 0),
          old(usage.storageBytes) + manifestBytes + (if complete then o.size else 0),
          old(usage.sourceCount) + 1, old(usage.chunkCount) + (if complete then o.chunks else 0), !complete || old(usage.sealed));
        r == Update(old(usage), next, complete) && usage == if r.Stored? then next else old(usage)
    {
      var next := usage;
      next := next.(sourceCount := next.sourceCount + 1);
      next := next.(storageBytes := next.storageBytes + manifestBytes);
      if complete {
        next := next.(textBytes := next.textBytes + o.size);
        next := next.(storageBytes := next.storageBytes + o.size);
        next := next.(chunkCount := next.chunkCount + o.chunks);
      } else {
        next := next.(sealed := true);
      }
      if !ValidUsage(next) {
        return BoundExceeded;
      }
      usage := next;
      return Stored(next, complete);
    }
  }

  // ---- the usage record --------------------------------------------------------------------------

  function FormatNat(n: nat): string {
    if n < 10 then [('0' as int + n) as char] else FormatNat(n / 10) + [('0' as int + n % 10) as char]
  }

  predicate DigitChar(c: char) {
    '0' <= c <= '9'
  }

  function ParseNat(s: string): nat
    requires forall i :: 0 <= i < |s| ==> DigitChar(s[i])
  {
    if s == [] then 0 else
      var last := s[|s| - 1];
      assert DigitChar(last);
      10 * ParseNat(s[..|s| - 1]) + (last as int - '0' as int)
  }

  lemma {:induction false} FormatDigits(n: nat)
    ensures FormatNat(n) != [] && (forall i :: 0 <= i < |FormatNat(n)| ==> DigitChar(FormatNat(n)[i])) && ParseNat(FormatNat(n)) == n
  {
    if n >= 10 {
      FormatDigits(n / 10);
      assert FormatNat(n)[..|FormatNat(n)| - 1] == FormatNat(n / 10);
    } else {
      assert FormatNat(n)[..0] == [];
    }
  }

  function Split(s: string): (parts: seq<string>)
    ensures parts != []
  {
    if s == [] then [[]]
    else if s[0] == ':' then [[]] + Split(s[1..])
    else var rest := Split(s[1..]); [[s[0]] + rest[0]] + rest[1..]
  }

  function Join(parts: seq<string>): string
    requires parts != []
  {
    if |parts| == 1 then parts[0] else parts[0] + [':'] + Join(parts[1..])
  }

  lemma {:induction false} JoinSplit(s: string)
    ensures Join(Split(s)) == s
  {
    if s != [] {
      JoinSplit(s[1..]);
      var rest := Split(s[1..]);
      if s[0] == ':' {
        assert Split(s)[1..] == rest;
      } else {
        assert Split(s)[1..] == rest[1..];
      }
    }
  }

  /** A part without a colon is read back as it was written. */
  lemma {:induction false} SplitPart(part: string, after: string)
    requires ':' !in part
    ensures Split(part) == [part]
    ensures Split(part + [':'] + after) == [part] + Split(after)
  {
    if part == [] {
      assert part + [':'] + after == [':'] + after;
      assert ([':'] + after)[1..] == after;
    } else {
      SplitPart(part[1..], after);
      assert (part + [':'] + after)[1..] == part[1..] + [':'] + after;
      assert ([part[1..]] + Split(after))[1..] == Split(after) && [part[1..]][1..] == [];
      assert [part[0]] + part[1..] == part;
    }
  }

  lemma {:induction false} SplitJoin(parts: seq<string>)
    requires parts != [] && forall i :: 0 <= i < |parts| ==> ':' !in parts[i]
    ensures Split(Join(parts)) == parts
  {
    if |parts| == 1 {
      SplitPart(parts[0], []);
    } else {
      SplitJoin(parts[1..]);
      SplitPart(parts[0], Join(parts[1..]));
    }
  }

  function Fields(u: Usage): seq<string>
    requires ValidUsage(u)
  {
    ["v1", FormatNat(u.textBytes), FormatNat(u.storageBytes), FormatNat(u.sourceCount), FormatNat(u.chunkCount)]
  }

  function EncodeUsage(u: Usage): string
    requires ValidUsage(u)
  {
    Join(Fields(u))
  }

  /** A number in canonical decimal form; `None` for any other text. */
  function ReadNumber(s: string): Option<nat> {
    if s != [] && (forall i :: 0 <= i < |s| ==> DigitChar(s[i])) && FormatNat(ParseNat(s)) == s then Some(ParseNat(s)) else None
  }

  function DecodeUsage(s: string, sealed: bool): Option<Usage> {
    var parts := Split(s);
    if |parts| != 5 || parts[0] != "v1" then None
    else
      var a, b, c, d := ReadNumber(parts[1]), ReadNumber(parts[2]), ReadNumber(parts[3]), ReadNumber(parts[4]);
      if a.None? || b.None? || c.None? || d.None? then None
      else
        var u := Usage(a.value, b.value, c.value, d.value, sealed);
        if ValidUsage(u) then Some(u) else None
  }

  lemma ReadWritten(n: nat)
    ensures ReadNumber(FormatNat(n)) == Some(n) && ':' !in FormatNat(n)
  {
    FormatDigits(n);
    forall c | c in FormatNat(n) ensures c != ':' {
      var i :| 0 <= i < |FormatNat(n)| && FormatNat(n)[i] == c;
      assert DigitChar(FormatNat(n)[i]);
    }
  }

  lemma DecodeEncoded(u: Usage)
    requires ValidUsage(u)
    ensures DecodeUsage(EncodeUsage(u), u.sealed) == Some(u)
  {
    ReadWritten(u.textBytes);
    ReadWritten(u.storageBytes);
    ReadWritten(u.sourceCount);
    ReadWritten(u.chunkCount);
    SplitJoin(Fields(u));
  }

  /** Only what the encoder writes is accepted. */
  lemma EncodeDecoded(s: string, sealed: bool)
    requires DecodeUsage(s, sealed).Some?
    ensures EncodeUsage(DecodeUsage(s, sealed).value) == s
  {
    JoinSplit(s);
    assert Fields(DecodeUsage(s, sealed).value) == Split(s);
  }
}

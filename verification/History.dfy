/** The exported history of a dialog: a hash-chained stream that is only ever appended to, read
    in pages, with its texts cut into pieces (runtime/history_export.go, contracts/history-replica/types.go). */
module History {
  import opened Wrappers
  import opened Utf8
  import SafeText

  type Id = nat

  datatype Kind = Entry | Fact | Receipt | TextManifest | TextChunk | AssetManifest

  /** Hashes are free terms: equal hashes come from equal inputs. */
  datatype CoreHash = CoreHash(recordId: Id, kind: Kind, content: Id)
  datatype Hash = Genesis(stream: Id) | Link(stream: Id, sequence: nat, previous: Hash, record: CoreHash)

  /** A record's own content with the hash it claims for itself. */
  datatype Core = Core(recordId: Id, kind: Kind, content: Id, hash: CoreHash)

  predicate Genuine(c: Core) {
    c.hash == CoreHash(c.recordId, c.kind, c.content)
  }

  datatype Record = Record(core: Core, sequence: nat, previous: Hash, chain: Hash)

  datatype Stream = Stream(id: Id, records: seq<Record>)

  function Seal(core: Core, stream: Id, sequence: nat, previous: Hash): Record {
    Record(core, sequence, previous, Link(stream, sequence, previous, core.hash))
  }

  function Tip(s: Stream, n: nat): Hash
    requires n <= |s.records|
  {
    if n == 0 then Genesis(s.id) else s.records[n - 1].chain
  }

  /** Record `i` continues the chain. */
  ghost predicate Linked(s: Stream, i: nat) {
    i < |s.records| && s.records[i] == Seal(s.records[i].core, s.id, i + 1, Tip(s, i)) && Genuine(s.records[i].core)
  }

  /** Sequences run from 1 without a hole, every record is chained to the one before, and no record appears twice. */
  ghost predicate Valid(s: Stream) {
    && (forall i: nat {:trigger Linked(s, i)} :: i < |s.records| ==> Linked(s, i))
    && (forall i, j :: 0 <= i < j < |s.records| ==> s.records[i].core.recordId != s.records[j].core.recordId)
  }

  // ---- appending ---------------------------------------------------------------------------

  predicate Present(s: Stream, id: Id) {
    exists i | 0 <= i < |s.records| :: s.records[i].core.recordId == id
  }

  /** A record with a known identifier is left as it is; one that disagrees with it, or with its own hash, is an error. */
  function Append(s: Stream, c: Core): Option<Stream> {
    if Present(s, c.recordId) then
      if exists i | 0 <= i < |s.records| :: s.records[i].core.recordId == c.recordId && s.records[i].core.hash == c.hash
      then Some(s) else None
    else if !Genuine(c) then None
    else Some(s.(records := s.records + [Seal(c, s.id, |s.records| + 1, Tip(s, |s.records|))]))
  }

  lemma AppendKeeps(s: Stream, c: Core)
    requires Valid(s) && Append(s, c).Some?
    ensures var s' := Append(s, c).value;
      && Valid(s') && s'.id == s.id && s.records <= s'.records && Append(s', c) == Some(s') && Present(s', c.recordId)
  {
    var s', n := Append(s, c).value, |s.records|;
    if !Present(s, c.recordId) {
      assert s'.records[n].core == c;
      forall i: nat | i < |s'.records| ensures Linked(s', i) {
        assert i < n ==> Linked(s, i);
      }
    }
  }

  /** One export appends its candidates in order. */
  function Export(s: Stream, candidates: seq<Core>): Option<Stream> {
    if candidates == [] then Some(s) else
      var n := |candidates| - 1;
      var before := Export(s, candidates[..n]);
      if before.None? then None else Append(before.value, candidates[n])
  }

  /** Exporting again only extends the stream an earlier export left, so every page already read stays true. */
  lemma {:induction false} ExportExtends(s: Stream, candidates: seq<Core>)
    requires Valid(s) && Export(s, candidates).Some?
    ensures var s' := Export(s, candidates).value; Valid(s') && s'.id == s.id && s.records <= s'.records
  {
    if candidates != [] {
      var n := |candidates| - 1;
      ExportExtends(s, candidates[..n]);
      AppendKeeps(Export(s, candidates[..n]).value, candidates[n]);
    }
  }

  /** The record is in the stream with the same content. */
  ghost predicate In(s: Stream, c: Core) {
    exists i :: 0 <= i < |s.records| && s.records[i].core.recordId == c.recordId && s.records[i].core.hash == c.hash
  }

  lemma InStays(s: Stream, t: Stream, c: Core)
    requires s.records <= t.records && In(s, c)
    ensures In(t, c)
  {
  }

  lemma AppendIn(s: Stream, c: Core)
    ensures Append(s, c).Some? ==> In(Append(s, c).value, c)
    ensures In(s, c) ==> Append(s, c) == Some(s)
  {
    if Append(s, c).Some? && !Present(s, c.recordId) {
      assert Append(s, c).value.records[|s.records|].core == c;
    }
  }

  /** Every candidate of an export is in place afterwards. */
  lemma {:induction false} Settled(s: Stream, candidates: seq<Core>, i: nat)
    requires Valid(s) && Export(s, candidates).Some? && i < |candidates|
    ensures In(Export(s, candidates).value, candidates[i])
  {
    var n := |candidates| - 1;
    var before := Export(s, candidates[..n]).value;
    ExportExtends(s, candidates[..n]);
    AppendKeeps(before, candidates[n]);
    AppendIn(before, candidates[n]);
    if i < n {
      Settled(s, candidates[..n], i);
      InStays(before, Export(s, candidates).value, candidates[i]);
    }
  }

  /** An export that finds nothing new changes nothing. */
  lemma {:induction false} ReexportIsSilent(s: Stream, candidates: seq<Core>, n: nat)
    requires Valid(s) && Export(s, candidates).Some? && n <= |candidates|
    ensures Export(Export(s, candidates).value, candidates[..n]) == Export(s, candidates)
  {
    if n > 0 {
      ReexportIsSilent(s, candidates, n - 1);
      assert candidates[..n][..n - 1] == candidates[..n - 1];
      Settled(s, candidates, n - 1);
      AppendIn(Export(s, candidates).value, candidates[n - 1]);
    }
  }

  /** The chain hash of a record fixes the whole stream before it. */
  lemma {:induction false} ChainFixesHistory(s: Stream, t: Stream, n: nat)
    requires Valid(s) && Valid(t) && 0 < n <= |s.records| && n <= |t.records|
    requires s.records[n - 1].chain == t.records[n - 1].chain
    ensures s.id == t.id && forall i :: 0 <= i < n ==> s.records[i] == t.records[i]
  {
    assert Linked(s, n - 1) && Linked(t, n - 1);
    if n > 1 {
      ChainFixesHistory(s, t, n - 1);
    }
  }

  /** The stream's rows and its counter, as one export changes them. */
  class Exporter {
    const id: Id
    var rows: seq<Record>
    var nextSeq: nat

    constructor (id: Id)
      ensures Consistent() && Now() == Stream(id, [])
    {
      this.id, rows, nextSeq := id, [], 1;
    }

    function Now(): Stream
      reads this
    {
      Stream(id, rows)
    }

    ghost predicate Consistent()
      reads this
    {
      Valid(Now()) && nextSeq == |rows| + 1
    }

    /** Inserts a record under the next sequence, sealed onto the record before it, unless its identifier is taken. */
    method AppendRecord(candidate: Core) returns (ok: bool)
      requires Consistent()
      modifies this
      ensures Consistent() && ok == Append(old(Now()), candidate).Some?
      ensures Now() == if ok then Append(old(Now()), candidate).value else old(Now())
    {
      if Append(Now(), candidate).Some? {
        AppendKeeps(Now(), candidate);
      }
      if exists i | 0 <= i < |rows| :: rows[i].core.recordId == candidate.recordId {
        return exists i | 0 <= i < |rows| :: rows[i].core.recordId == candidate.recordId && rows[i].core.hash == candidate.hash;
      }
      if !Genuine(candidate) {
        return false;
      }
      var previous := Genesis(id);
      if nextSeq > 1 {
        previous := rows[nextSeq - 2].chain;
      }
      rows := rows + [Seal(candidate, id, nextSeq, previous)];
      nextSeq := nextSeq + 1;
      return true;
    }

    /** One export: the candidates in order. A conflict stops it, and its transaction is rolled back. */
    method ExportAll(candidates: seq<Core>) returns (ok: bool)
      requires Consistent()
      modifies this
      ensures Consistent() && ok == Export(old(Now()), candidates).Some?
      ensures Now() == if ok then Export(old(Now()), candidates).value else old(Now())
    {
      ghost var start := Now();
      var kept, counter := rows, nextSeq;
      for i := 0 to |candidates|
        invariant Consistent() && Export(start, candidates[..i]) == Some(Now())
      {
        assert candidates[..i + 1][..i] == candidates[..i];
        ok := AppendRecord(candidates[i]);
        if !ok {
          Conflicts(start, candidates, i + 1);
          rows, nextSeq := kept, counter;
          return false;
        }
      }
      assert candidates[..|candidates|] == candidates;
      return true;
    }
  }

  /** An export that has met a conflict fails. */
  lemma {:induction false} Conflicts(s: Stream, candidates: seq<Core>, n: nat)
    requires n <= |candidates| && Export(s, candidates[..n]).None?
    ensures Export(s, candidates).None?
  {
    if n < |candidates| {
      var front := candidates[..|candidates| - 1];
      assert front[..n] == candidates[..n];
      Conflicts(s, front, n);
    } else {
      assert candidates[..n] == candidates;
    }
  }

  // ---- coverage ------------------------------------------------------------------------------

  datatype Counts = Counts(entries: nat, facts: nat, receipts: nat, manifests: nat, chunks: nat, assets: nat)

  function CountOf(c: Counts, kind: Kind): nat {
    match kind
    case Entry => c.entries
    case Fact => c.facts
    case Receipt => c.receipts
    case TextManifest => c.manifests
    case TextChunk => c.chunks
    case AssetManifest => c.assets
  }

  function Sum(c: Counts): nat {
    c.entries + c.facts + c.receipts + c.manifests + c.chunks + c.assets
  }

  function OfKind(records: seq<Record>, kind: Kind): nat {
    if records == [] then 0 else
      OfKind(records[..|records| - 1], kind) + if records[|records| - 1].core.kind == kind then 1 else 0
  }

  /** The five coverage hashes: manifests and chunks share one. */
  datatype Group = Entries | Facts | Receipts | Texts | Assets

  function GroupOf(kind: Kind): Group {
    match kind
    case Entry => Entries
    case Fact => Facts
    case Receipt => Receipts
    case TextManifest => Texts
    case TextChunk => Texts
    case AssetManifest => Assets
  }

  /** A folded coverage hash, as a free term. */
  datatype Fold = Start | Folded(before: Fold, record: CoreHash)

  function FoldOf(records: seq<Record>, group: Group): Fold {
    if records == [] then Start else
      var last, before := records[|records| - 1], FoldOf(records[..|records| - 1], group);
      if GroupOf(last.core.kind) == group then Folded(before, last.core.hash) else before
  }

  function HashesOf(records: seq<Record>, group: Group): seq<CoreHash> {
    if records == [] then [] else
      var last, before := records[|records| - 1], HashesOf(records[..|records| - 1], group);
      if GroupOf(last.core.kind) == group then before + [last.core.hash] else before
  }

  function FoldUp(hashes: seq<CoreHash>): Fold {
    if hashes == [] then Start else Folded(FoldUp(hashes[..|hashes| - 1]), hashes[|hashes| - 1])
  }

  lemma {:induction false} FoldsUp(records: seq<Record>, group: Group)
    ensures FoldOf(records, group) == FoldUp(HashesOf(records, group))
  {
    if records != [] {
      var n := |records| - 1;
      FoldsUp(records[..n], group);
      assert (HashesOf(records[..n], group) + [records[n].core.hash])[..|HashesOf(records[..n], group)|] == HashesOf(records[..n], group);
    }
  }

  lemma {:induction false} FoldUpInjective(a: seq<CoreHash>, b: seq<CoreHash>)
    requires FoldUp(a) == FoldUp(b)
    ensures a == b
  {
    if a != [] && b != [] {
      FoldUpInjective(a[..|a| - 1], b[..|b| - 1]);
      assert a == a[..|a| - 1] + [a[|a| - 1]] && b == b[..|b| - 1] + [b[|b| - 1]];
    }
  }

  /** Equal coverage hashes mean the same records of the group, in the same order, wherever they stand in the stream. */
  lemma CoverageFixesRecords(s: Stream, t: Stream, group: Group)
    ensures FoldOf(s.records, group) == FoldOf(t.records, group) <==> HashesOf(s.records, group) == HashesOf(t.records, group)
  {
    FoldsUp(s.records, group);
    FoldsUp(t.records, group);
    if FoldOf(s.records, group) == FoldOf(t.records, group) {
      FoldUpInjective(HashesOf(s.records, group), HashesOf(t.records, group));
    }
  }

  datatype Covered = Covered(counts: Counts, entries: Fold, facts: Fold, receipts: Fold, texts: Fold, assets: Fold)

  function FoldIn(c: Covered, group: Group): Fold {
    match group
    case Entries => c.entries
    case Facts => c.facts
    case Receipts => c.receipts
    case Texts => c.texts
    case Assets => c.assets
  }

  method CoverRecord(c: Covered, record: Core) returns (after: Covered)
    ensures forall k :: CountOf(after.counts, k) == CountOf(c.counts, k) + if k == record.kind then 1 else 0
    ensures forall g :: FoldIn(after, g) == if g == GroupOf(record.kind) then Folded(FoldIn(c, g), record.hash) else FoldIn(c, g)
    ensures Sum(after.counts) == Sum(c.counts) + 1
  {
    var n := c.counts;
    match record.kind
    case Entry => after := c.(entries := Folded(c.entries, record.hash), counts := n.(entries := n.entries + 1));
    case Fact => after := c.(facts := Folded(c.facts, record.hash), counts := n.(facts := n.facts + 1));
    case Receipt => after := c.(receipts := Folded(c.receipts, record.hash), counts := n.(receipts := n.receipts + 1));
    case TextManifest => after := c.(texts := Folded(c.texts, record.hash), counts := n.(manifests := n.manifests + 1));
    case TextChunk => after := c.(texts := Folded(c.texts, record.hash), counts := n.(chunks := n.chunks + 1));
    case AssetManifest => after := c.(assets := Folded(c.assets, record.hash), counts := n.(assets := n.assets + 1));
  }

  /** What a checkpoint says about the records up to it. */
  function CoveredOf(records: seq<Record>): Covered {
    Covered(Counts(OfKind(records, Entry), OfKind(records, Fact), OfKind(records, Receipt), OfKind(records, TextManifest),
                   OfKind(records, TextChunk), OfKind(records, AssetManifest)),
            FoldOf(records, Entries), FoldOf(records, Facts), FoldOf(records, Receipts), FoldOf(records, Texts), FoldOf(records, Assets))
  }

  /** Every record is counted once. */
  lemma {:induction false} CountsAddUp(records: seq<Record>)
    ensures Sum(CoveredOf(records).counts) == |records|
  {
    if records != [] {
      CountsAddUp(records[..|records| - 1]);
    }
  }

  lemma AllCovered(c: Covered, records: seq<Record>)
    requires forall kind :: CountOf(c.counts, kind) == OfKind(records, kind)
    requires forall group :: FoldIn(c, group) == FoldOf(records, group)
    ensures c == CoveredOf(records)
  {
    assert CountOf(c.counts, Entry) == c.counts.entries && CountOf(c.counts, Fact) == c.counts.facts
      && CountOf(c.counts, Receipt) == c.counts.receipts && CountOf(c.counts, TextManifest) == c.counts.manifests
      && CountOf(c.counts, TextChunk) == c.counts.chunks && CountOf(c.counts, AssetManifest) == c.counts.assets;
    assert FoldIn(c, Entries) == c.entries && FoldIn(c, Facts) == c.facts && FoldIn(c, Receipts) == c.receipts
      && FoldIn(c, Texts) == c.texts && FoldIn(c, Assets) == c.assets;
  }

  /** Folds the stream once: the counts of a checkpoint always add up to its last sequence, and every coverage hash is the
      fold of its group. */
  method Coverage(s: Stream) returns (covered: Covered, next: nat)
    ensures covered == CoveredOf(s.records)
    ensures Sum(covered.counts) == |s.records| && next == |s.records| + 1
  {
    covered, next := Covered(Counts(0, 0, 0, 0, 0, 0), Start, Start, Start, Start, Start), 1;
    for i := 0 to |s.records|
      invariant next == i + 1
      invariant forall kind :: CountOf(covered.counts, kind) == OfKind(s.records[..i], kind)
      invariant forall group :: FoldIn(covered, group) == FoldOf(s.records[..i], group)
    {
      assert s.records[..i + 1][..i] == s.records[..i];
      next := next + 1;
      covered := CoverRecord(covered, s.records[i].core);
    }
    assert s.records[..|s.records|] == s.records;
    AllCovered(covered, s.records);
    CountsAddUp(s.records);
  }

  // ---- pages -----------------------------------------------------------------------------------

  const MAX_PAGE_RECORDS := 200
  const MAX_PAGE_BYTES := 8 * 1024 * 1024

  /** What a checkpoint carries besides its coverage. */
  datatype Info = Info(dialogVersion: nat, queueRevision: nat, ready: bool, reason: string)

  datatype Checkpoint = Checkpoint(through: nat, chain: Hash, covered: Covered, info: Info)

  datatype Page = Page(stream: Id, after: nat, records: seq<Record>, nextAfter: Option<nat>, checkpoint: Checkpoint)

  predicate InfoOk(info: Info) {
    info.dialogVersion >= 1 && info.queueRevision >= 1 && (info.ready <==> info.reason == "")
  }

  predicate CheckpointOk(c: Checkpoint) {
    InfoOk(c.info) && Sum(c.covered.counts) == c.through
  }

  /** The chain runs through the first `n` records of the page. */
  ghost predicate Chained(p: Page, n: nat) {
    && n <= |p.records|
    && (forall k :: 0 <= k < n ==>
          && p.records[k].sequence == p.after + k + 1 && Genuine(p.records[k].core)
          && p.records[k].chain == Link(p.stream, p.records[k].sequence, p.records[k].previous, p.records[k].core.hash))
    && (forall k :: 0 < k < n ==> p.records[k].previous == p.records[k - 1].chain)
    && (p.after == 0 && n > 0 ==> p.records[0].previous == Genesis(p.stream))
  }

  /** What a reader requires of a page. */
  ghost predicate PageOk(p: Page) {
    && |p.records| <= MAX_PAGE_RECORDS && p.after <= p.checkpoint.through && CheckpointOk(p.checkpoint)
    && Chained(p, |p.records|)
    && (match p.nextAfter
        case Some(next) => p.records != [] && next == p.after + |p.records| && next < p.checkpoint.through
        case None => p.after + |p.records| == p.checkpoint.through
                     && (p.checkpoint.through == 0 ==> p.checkpoint.chain == Genesis(p.stream)))
  }

  /** `size`: the bytes of the encoded page. */
  method ValidatePage(p: Page, size: nat) returns (ok: bool)
    ensures ok <==> PageOk(p) && size <= MAX_PAGE_BYTES
  {
    var through := p.checkpoint.through;
    if |p.records| > MAX_PAGE_RECORDS || p.after > through || !CheckpointOk(p.checkpoint) {
      return false;
    }
    var previous := if p.after == 0 then Genesis(p.stream) else if p.records == [] then p.checkpoint.chain else p.records[0].previous;
    ghost var first := previous;
    for i := 0 to |p.records|
      invariant Chained(p, i) && previous == if i == 0 then first else p.records[i - 1].chain
    {
      var r := p.records[i];
      if r.sequence != p.after + i + 1 || r.previous != previous || !Genuine(r.core)
         || r.chain != Link(p.stream, r.sequence, r.previous, r.core.hash) {
        return false;
      }
      previous := r.chain;
    }
    if p.nextAfter.Some? {
      if p.records == [] || p.nextAfter.value != p.records[|p.records| - 1].sequence || p.nextAfter.value >= through {
        return false;
      }
    } else if p.records != [] && p.records[|p.records| - 1].sequence != through {
      return false;
    } else if p.records == [] && p.after != through {
      return false;
    } else if through == 0 && p.checkpoint.chain != Genesis(p.stream) {
      return false;
    }
    return size <= MAX_PAGE_BYTES;
  }

  /** The cursor that follows a page of `n` records. */
  function NextAfter(s: Stream, after: nat, n: nat): Option<nat> {
    if n > 0 && after + n < |s.records| then Some(after + n) else None
  }

  /** The checkpoint of the whole stream. */
  predicate CheckpointFor(s: Stream, c: Checkpoint) {
    InfoOk(c.info) && c == Checkpoint(|s.records|, Tip(s, |s.records|), CoveredOf(s.records), c.info)
  }

  lemma CheckpointIsOk(s: Stream, c: Checkpoint)
    requires CheckpointFor(s, c)
    ensures CheckpointOk(c) && c.through == |s.records| && (c.through == 0 ==> c.chain == Genesis(s.id))
  {
    CountsAddUp(s.records);
  }

  /** The page over the first `n` records after the cursor. */
  function PageOf(s: Stream, after: nat, n: nat, c: Checkpoint): Page
    requires after + n <= |s.records|
  {
    Page(s.id, after, s.records[after..after + n], NextAfter(s, after, n), c)
  }

  lemma PageChained(s: Stream, p: Page, n: nat)
    requires Valid(s) && p.after + n <= |s.records| && p.records == s.records[p.after..p.after + n] && p.stream == s.id
    ensures Chained(p, n)
  {
    forall i | 0 <= i < n
      ensures Genuine(p.records[i].core) && p.records[i] == Seal(p.records[i].core, s.id, p.after + i + 1, Tip(s, p.after + i))
    {
      assert Linked(s, p.after + i);
    }
  }

  lemma PageOfStream(s: Stream, after: nat, n: nat, c: Checkpoint)
    requires Valid(s) && after + n <= |s.records| && n <= MAX_PAGE_RECORDS
    requires CheckpointOk(c) && c.through == |s.records| && (c.through == 0 ==> c.chain == Genesis(s.id))
    ensures PageOk(PageOf(s, after, n, c)) <==> n > 0 || after == |s.records|
  {
    var p := PageOf(s, after, n, c);
    PageChained(s, p, n);
    PageFits(p);
  }

  lemma PageFits(p: Page)
    requires CheckpointOk(p.checkpoint) && Chained(p, |p.records|) && |p.records| <= MAX_PAGE_RECORDS
    requires p.after + |p.records| <= p.checkpoint.through && (p.checkpoint.through == 0 ==> p.checkpoint.chain == Genesis(p.stream))
    requires p.nextAfter == if p.records != [] && p.after + |p.records| < p.checkpoint.through then Some(p.after + |p.records|) else None
    ensures PageOk(p) <==> p.records != [] || p.after == p.checkpoint.through
  {
  }

  /** Trims records off the end until the encoded page fits. `sizes[n]` is the encoded size with `n` records. A page that
      comes out passes validation and makes progress, and no longer page would have fitted. */
  method EncodePage(s: Stream, after: nat, limit: nat, sizes: seq<nat>, c: Checkpoint) returns (page: Option<Page>)
    requires Valid(s) && CheckpointFor(s, c) && after <= |s.records| && 1 <= limit <= MAX_PAGE_RECORDS && |sizes| == limit + 1
    ensures var most := if after + limit <= |s.records| then limit else |s.records| - after;
      match page
      case Some(p) =>
        && PageOk(p) && |p.records| <= most && p == PageOf(s, after, |p.records|, c)
        && (|p.records| > 0 || after == |s.records|) && sizes[|p.records|] <= MAX_PAGE_BYTES
        && forall n :: |p.records| < n <= most ==> sizes[n] > MAX_PAGE_BYTES
      case None => (forall n :: 0 < n <= most ==> sizes[n] > MAX_PAGE_BYTES) && (sizes[0] > MAX_PAGE_BYTES || after < |s.records|)
  {
    var most := if after + limit <= |s.records| then limit else |s.records| - after;
    var n := most;
    while sizes[n] > MAX_PAGE_BYTES
      invariant 0 <= n <= most
      invariant forall k :: n < k <= most ==> sizes[k] > MAX_PAGE_BYTES
      decreases n
    {
      if n == 0 {
        return None;
      }
      n := n - 1;
    }
    CheckpointIsOk(s, c);
    PageOfStream(s, after, n, c);
    var ok := ValidatePage(PageOf(s, after, n, c), sizes[n]);
    if !ok {
      return None;
    }
    return Some(PageOf(s, after, n, c));
  }

  // ---- following the stream ---------------------------------------------------------------------

  /** One page a reader got: the stream as it was then, the cursor it sent and the number of records it received. */
  datatype Visit = Visit(stream: Stream, after: nat, count: nat)

  /** The page is one the encoder gives out: it has records, or the cursor was at the end. */
  predicate VisitOk(v: Visit) {
    v.after + v.count <= |v.stream.records| && (v.count > 0 || v.after == |v.stream.records|)
  }

  /** The next request follows the cursor of the last page, on a stream that may have grown. */
  predicate Follows(u: Visit, v: Visit) {
    && VisitOk(u) && VisitOk(v) && u.stream.records <= v.stream.records
    && NextAfter(u.stream, u.after, u.count) == Some(v.after)
  }

  /** A reader that starts at 0 and follows the cursors. */
  ghost predicate Following(visits: seq<Visit>) {
    if |visits| == 0 then true
    else if |visits| == 1 then VisitOk(visits[0]) && visits[0].after == 0
    else Following(visits[..|visits| - 1]) && Follows(visits[|visits| - 2], visits[|visits| - 1])
  }

  function Got(v: Visit): seq<Record> {
    if v.after + v.count <= |v.stream.records| then v.stream.records[v.after..v.after + v.count] else []
  }

  function Received(visits: seq<Visit>): seq<Record> {
    if visits == [] then [] else Received(visits[..|visits| - 1]) + Got(visits[|visits| - 1])
  }

  /** Having received everything up to the last page's end. */
  predicate UpToDate(received: seq<Record>, v: Visit) {
    v.after + v.count <= |v.stream.records| && received == v.stream.records[..v.after + v.count]
  }

  lemma OneMorePage(received: seq<Record>, u: Visit, v: Visit)
    requires Follows(u, v) && UpToDate(received, u)
    ensures UpToDate(received + Got(v), v)
  {
  }

  lemma LastPage(received: seq<Record>, v: Visit)
    requires UpToDate(received, v) && VisitOk(v)
    ensures NextAfter(v.stream, v.after, v.count) == None ==> received == v.stream.records
  {
  }

  /** For any page limits and any trimming, what the reader has received is exactly a prefix of the stream, and the whole of
      it once a page comes without a next cursor. */
  lemma {:induction false} PagesReassemble(visits: seq<Visit>)
    requires Following(visits) && visits != []
    ensures var v := visits[|visits| - 1]; UpToDate(Received(visits), v) && VisitOk(v)
    ensures var v := visits[|visits| - 1]; NextAfter(v.stream, v.after, v.count) == None ==> Received(visits) == v.stream.records
  {
    var n := |visits| - 1;
    if n == 0 {
      assert Received(visits[..0]) == [];
    } else {
      PagesReassemble(visits[..n]);
      OneMorePage(Received(visits[..n]), visits[n - 1], visits[n]);
    }
    LastPage(Received(visits), visits[n]);
  }

  // ---- text pieces --------------------------------------------------------------------------------

  const PIECE := 1024 * 1024

  datatype Piece = Piece(index: nat, offset: nat, bytes: Bytes)

  function Text(chunks: seq<Bytes>): Bytes {
    if chunks == [] then [] else Text(chunks[..|chunks| - 1]) + chunks[|chunks| - 1]
  }

  function Pieces(n: nat): nat {
    (n + PIECE - 1) / PIECE
  }

  function PiecesOf(chunks: seq<Bytes>): nat {
    if chunks == [] then 0 else PiecesOf(chunks[..|chunks| - 1]) + Pieces(|chunks[|chunks| - 1]|)
  }

  /** The room the last piece of every source chunk leaves unused. */
  function Padding(chunks: seq<Bytes>): nat {
    if chunks == [] then 0 else
      var last := |chunks[|chunks| - 1]|;
      assert Pieces(last) * PIECE >= last;
      Padding(chunks[..|chunks| - 1]) + (Pieces(last) * PIECE - last)
  }

  /** The pieces lie end to end, are numbered in order, and are never empty nor too large. */
  ghost predicate Tile(pieces: seq<Piece>, text: Bytes) {
    && (forall i :: 0 <= i < |pieces| ==>
          && pieces[i].index == i && 1 <= |pieces[i].bytes| <= PIECE
          && pieces[i].offset == (if i == 0 then 0 else pieces[i - 1].offset + |pieces[i - 1].bytes|))
    && (if pieces == [] then text == [] else pieces[|pieces| - 1].offset + |pieces[|pieces| - 1].bytes| == |text|)
    && forall i :: 0 <= i < |pieces| ==> PartOf(pieces[i], text)
  }

  /** The piece holds the bytes of the text at its offset. */
  predicate PartOf(piece: Piece, text: Bytes) {
    piece.offset + |piece.bytes| <= |text| && text[piece.offset..piece.offset + |piece.bytes|] == piece.bytes
  }

  lemma TileAppend(pieces: seq<Piece>, text: Bytes, part: Bytes)
    requires Tile(pieces, text) && 1 <= |part| <= PIECE
    ensures Tile(pieces + [Piece(|pieces|, |text|, part)], text + part)
  {
    var longer, all := text + part, pieces + [Piece(|pieces|, |text|, part)];
    forall i | 0 <= i < |all| ensures PartOf(all[i], longer) {
      if i < |pieces| {
        assert PartOf(pieces[i], text);
        assert longer[pieces[i].offset..pieces[i].offset + |pieces[i].bytes|] == text[pieces[i].offset..pieces[i].offset + |pieces[i].bytes|];
      }
    }
  }

  lemma CutStep(pieces: seq<Piece>, text: Bytes, total: nat, content: Bytes, start: nat, end: nat)
    requires start < end <= |content| && end - start <= PIECE && Tile(pieces, text + content[..start]) && total == |text|
    ensures Tile(pieces + [Piece(|pieces|, total + start, content[start..end])], text + content[..end])
  {
    TileAppend(pieces, text + content[..start], content[start..end]);
    assert text + content[..start] + content[start..end] == text + content[..end];
  }

  lemma QuotientIs(n: nat, q: nat)
    requires q * PIECE <= n < q * PIECE + PIECE
    ensures n / PIECE == q && n % PIECE == n - q * PIECE
  {
  }

  /** Cuts one source chunk, continuing the pieces of the text before it. */
  method CutChunk(before: seq<Piece>, ghost text: Bytes, total: nat, content: Bytes) returns (pieces: seq<Piece>)
    requires Tile(before, text) && total == |text|
    ensures Tile(pieces, text + content) && |pieces| == |before| + Pieces(|content|)
  {
    pieces := before;
    var start := 0;
    ghost var cut := 0;
    assert text + content[..0] == text;
    while start < |content|
      invariant 0 <= start <= |content| && Tile(pieces, text + content[..start])
      invariant |pieces| == |before| + cut && start <= cut * PIECE < start + PIECE && (start == cut * PIECE || start == |content|)
    {
      var end := if start + PIECE > |content| then |content| else start + PIECE;
      CutStep(pieces, text, total, content, start, end);
      pieces := pieces + [Piece(|pieces|, total + start, content[start..end])];
      start, cut := end, cut + 1;
    }
    assert content[..|content|] == content;
    QuotientIs(|content| + PIECE - 1, cut);
  }

  lemma TextStep(chunks: seq<Bytes>, c: nat)
    requires c < |chunks|
    ensures Text(chunks[..c + 1]) == Text(chunks[..c]) + chunks[c]
    ensures PiecesOf(chunks[..c + 1]) == PiecesOf(chunks[..c]) + Pieces(|chunks[c]|)
  {
    assert chunks[..c + 1][..c] == chunks[..c];
  }

  /** Cuts every source chunk into pieces. The pieces always tile the text; the count announced before the cut is
      right exactly when the pieces' padding adds up to less than one piece. */
  method CutText(chunks: seq<Bytes>) returns (pieces: seq<Piece>, ok: bool)
    ensures Tile(pieces, Text(chunks)) && |pieces| == PiecesOf(chunks)
    ensures ok <==> Padding(chunks) < PIECE
  {
    pieces := [];
    var total := 0;
    for c := 0 to |chunks|
      invariant total == |Text(chunks[..c])|
      invariant Tile(pieces, Text(chunks[..c])) && |pieces| == PiecesOf(chunks[..c])
    {
      TextStep(chunks, c);
      pieces := CutChunk(pieces, Text(chunks[..c]), total, chunks[c]);
      total := total + |chunks[c]|;
    }
    assert chunks[..|chunks|] == chunks;
    PaddingDecides(chunks);
    return pieces, |pieces| == Pieces(total);
  }

  lemma {:induction false} PaddingBalances(chunks: seq<Bytes>)
    ensures PiecesOf(chunks) * PIECE == |Text(chunks)| + Padding(chunks)
  {
    if chunks != [] {
      PaddingBalances(chunks[..|chunks| - 1]);
    }
  }

  /** The announced count is the size divided by the piece size, rounded up. */
  lemma PaddingDecides(chunks: seq<Bytes>)
    ensures PiecesOf(chunks) == Pieces(|Text(chunks)|) <==> Padding(chunks) < PIECE
  {
    PaddingBalances(chunks);
  }

  /** Source chunks that are whole pieces, all but the last, always pass. */
  lemma {:induction false} WholeChunksPass(chunks: seq<Bytes>)
    requires forall i :: 0 <= i < |chunks| - 1 ==> |chunks[i]| % PIECE == 0
    ensures Padding(chunks) < PIECE && ((forall i :: 0 <= i < |chunks| ==> |chunks[i]| % PIECE == 0) ==> Padding(chunks) == 0)
  {
    if chunks != [] {
      WholeChunksPass(chunks[..|chunks| - 1]);
    }
  }

  /** The texts of the chunks. */
  function Parts(value: Bytes, chunks: seq<SafeText.Chunk>): seq<Bytes>
    requires forall i :: 0 <= i < |chunks| ==> chunks[i].offset + chunks[i].size <= |value|
  {
    seq(|chunks|, i requires 0 <= i < |chunks| => SafeText.Part(value, chunks[i]))
  }

  /** A text the splitter cuts short of a whole chunk, with a byte too many left for the last piece: its pieces tile it, but
      there are 18 of them where 17 are announced. */
  lemma ShortChunkFails(chunks: seq<SafeText.Chunk>)
    requires SafeText.Tiles(chunks) && SafeText.End(chunks) == |SafeText.Straddling()|
    requires SafeText.AllCut(SafeText.Straddling(), chunks)
    ensures forall i :: 0 <= i < |chunks| ==> chunks[i].offset + chunks[i].size <= |SafeText.Straddling()|
    ensures var parts := Parts(SafeText.Straddling(), chunks);
      Padding(parts) >= PIECE && PiecesOf(parts) == 18 && Pieces(|Text(parts)|) == 17
  {
    var t := SafeText.Straddling();
    SafeText.StraddlingChunks(chunks);
    var parts := Parts(t, chunks);
    TwoParts(parts[0], parts[1]);
    assert parts == [parts[0], parts[1]];
  }

  lemma TwoParts(first: Bytes, second: Bytes)
    requires |first| == 16 * PIECE - 1 && |second| == PIECE + 1
    ensures Padding([first, second]) >= PIECE && PiecesOf([first, second]) == 18 && Pieces(|Text([first, second])|) == 17
  {
    assert [first, second][..1] == [first] && [first][..0] == [];
    assert Text([first]) == first && Text([first, second]) == Text([first]) + second;
    assert PiecesOf([first]) == PiecesOf([]) + 16 && PiecesOf([first, second]) == PiecesOf([first]) + 2;
    PaddingBalances([first, second]);
  }
}

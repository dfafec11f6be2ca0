// packages/auditlog/chain.go: the per-tenant hash chain over audit events.
//
// SHA-256 and the UTC time layout are function fields of a Codec. Nothing is
// assumed about SHA-256 beyond the shape of its hex form; resistance to
// collisions is stated where it is used, and only for the preimages at hand
// (NoCollision), because no function is injective into 64 hex characters.
module AuditChain {
  import opened Text

  // Nanoseconds since 0001-01-01T00:00:00Z, Go's zero time.
  type Time = int
  const ZERO_TIME: Time := 0

  datatype Codec = Codec(hash: string -> string, timeText: Time -> string, cutoffText: Time -> string) {
    ghost predicate WellFormed() {
      && (forall s :: IsHexDigest(hash(s)))
      && (forall t :: PipeFree(timeText(t)))
      && (forall t, u :: timeText(t) == timeText(u) ==> t == u)
      && (forall t :: PipeFree(cutoffText(t)))
    }
  }

  datatype Event = Event(
    id: Uuid, tenant: Uuid, time: Time,
    actor: string, action: string, target: string, outcome: string,
    kind: string, caseId: Uuid, detail: string,
    prevHash: string, chainHash: string)

  // ---------- contentDigest, ComputeChainHash ----------

  // The fields the digest covers, in the order it writes them.
  function Fields(codec: Codec, e: Event): seq<string> {
    [e.tenant, codec.timeText(e.time), e.actor, e.action, e.target, e.outcome, e.kind, e.caseId, e.detail]
  }

  function ContentDigest(codec: Codec, e: Event): string {
    Join(Fields(codec, e))
  }

  function Preimage(prev: string, id: string, digest: string): string {
    prev + (id + (Itoa(|digest|) + digest))
  }

  function ChainHash(codec: Codec, prev: string, e: Event): string {
    codec.hash(Preimage(prev, e.id, ContentDigest(codec, e)))
  }

  // Same event up to its two hash fields.
  predicate SameContent(a: Event, b: Event) {
    a.(prevHash := "", chainHash := "") == b.(prevHash := "", chainHash := "")
  }

  // ---------- the digest is decodable exactly for unambiguous events ----------

  // What a caller can check before appending: the free-text fields hold no
  // separator, and no '|'-terminated token of Detail could be read as a case ID.
  predicate Unambiguous(e: Event) {
    && PipeFree(e.actor) && PipeFree(e.action) && PipeFree(e.target)
    && PipeFree(e.outcome) && PipeFree(e.kind)
    && NoHiddenUuid(e.detail)
  }

  predicate NoHiddenUuid(detail: string) {
    var ts := Split(detail);
    forall k :: 0 <= k < |ts| - 1 ==> !IsUuidText(ts[k])
  }

  lemma UuidPipeFree(u: string)
    requires IsUuidText(u)
    ensures PipeFree(u)
  {
    assert forall i :: 0 <= i < |u| ==> u[i] != SEP;
  }

  // Two field lists ending in a case ID and a detail, written as one text: when
  // the first list is unambiguous, its case ID is the only token the second
  // list's case ID can be, and so every field agrees.
  lemma FieldsDecodable(fs: seq<string>, u: string, d: string, gs: seq<string>, v: string, x: string)
    requires |fs| == |gs| && (forall i :: 0 <= i < |fs| ==> PipeFree(fs[i]))
    requires IsUuidText(u) && IsUuidText(v) && NoHiddenUuid(d)
    requires Join(fs + [u, d]) == Join(gs + [v, x])
    ensures fs == gs && u == v && d == x
  {
    SameTokensSameText(fs + [u, d], gs + [v, x]);
    UuidPipeFree(u);
    UuidPipeFree(v);
    TailTokens(fs, u, d);
    TailTokens(gs, v, x);
    TokensPipeFree(fs);
    TokensPipeFree(gs);
    OnlyUuidToken(fs, u, Split(d), Tokens(gs), v, Split(x));
    SplitInjective(d, x);
  }

  lemma OnlyUuidToken(fs: seq<string>, u: string, ds: seq<string>, gs: seq<string>, v: string, xs: seq<string>)
    requires fs + [u] + ds == gs + [v] + xs && |gs| >= |fs| && |xs| >= 1
    requires IsUuidText(v) && forall k :: 0 <= k < |ds| - 1 ==> !IsUuidText(ds[k])
    ensures fs == gs && u == v && ds == xs
  {
    var ts, n, m := fs + [u] + ds, |fs|, |gs|;
    assert ts[m] == v;
    assert forall k :: n < k < |ts| ==> ts[k] == ds[k - n - 1];
    assert m == n;
    assert fs == ts[..n] && gs == ts[..n];
    assert ds == ts[n + 1..] && xs == ts[n + 1..];
  }

  lemma TailTokens(fs: seq<string>, u: string, d: string)
    requires PipeFree(u)
    ensures Tokens(fs + [u, d]) == Tokens(fs) + [u] + Split(d)
  {
    TokensConcat(fs, [u, d]);
    SplitPipeFree(u);
    TokensConcat([u], [d]);
    assert [u] + [d] == [u, d];
    TokensOne(u);
    TokensOne(d);
  }

  lemma DigestInjective(codec: Codec, e: Event, f: Event)
    requires codec.WellFormed() && Unambiguous(e) && e.id == f.id
    requires ContentDigest(codec, e) == ContentDigest(codec, f)
    ensures SameContent(e, f)
  {
    var fs, gs := Fields(codec, e)[..7], Fields(codec, f)[..7];
    assert Fields(codec, e) == fs + [e.caseId, e.detail];
    assert Fields(codec, f) == gs + [f.caseId, f.detail];
    UuidPipeFree(e.tenant);
    FieldsDecodable(fs, e.caseId, e.detail, gs, f.caseId, f.detail);
    assert fs[0] == gs[0] && fs[1] == gs[1] && fs[2] == gs[2] && fs[3] == gs[3];
    assert fs[4] == gs[4] && fs[5] == gs[5] && fs[6] == gs[6];
  }

  // Moving a separator's right-hand side into the next field, or an earlier
  // field into the next, does not change the text.
  lemma ShiftRight(pre: seq<string>, x: string, y: string, z: string, post: seq<string>)
    ensures Join(pre + [x + [SEP] + y, z] + post) == Join(pre + [x, y + [SEP] + z] + post)
  {
    hide Tokens, Split, Join;
    var a, b := [x + [SEP] + y, z], [x, y + [SEP] + z];
    SplitConcat(x, y);
    SplitConcat(y, z);
    TokensConcat([a[0]], [a[1]]); TokensConcat([b[0]], [b[1]]);
    assert a == [a[0]] + [a[1]] && b == [b[0]] + [b[1]];
    TokensOne(a[0]); TokensOne(a[1]); TokensOne(b[0]); TokensOne(b[1]);
    assert Tokens(a) == Tokens(b);
    TokensConcat(pre, a); TokensConcat(pre, b);
    TokensConcat(pre + a, post); TokensConcat(pre + b, post);
    SameTokensSameText(pre + a + post, pre + b + post);
  }

  predicate Twins(codec: Codec, e: Event, f: Event) {
    && ContentDigest(codec, f) == ContentDigest(codec, e) && !SameContent(e, f)
    && f.id == e.id && f.prevHash == e.prevHash && f.chainHash == e.chainHash
  }

  // A separator inside Actor, Action, Target, Outcome or Kind: some other event
  // has the same digest.
  lemma PipeTwin(codec: Codec, e: Event, k: nat) returns (f: Event)
    requires 2 <= k <= 6 && !PipeFree(Fields(codec, e)[k])
    ensures Twins(codec, e, f)
  {
    hide Join, FirstPipe, Twins, PipeFree;
    var fs := Fields(codec, e);
    var i := FirstPipe(fs[k]);
    assert i < |fs[k]| by {
      PipeFound(fs[k]);
    }
    assert fs[k] == fs[k][..i] + [SEP] + fs[k][i + 1..];
    if k < 6 {
      f := PushRight(codec, e, k, fs[k][..i], fs[k][i + 1..]);
    } else {
      f := PushLeft(codec, e, fs[k][..i], fs[k][i + 1..]);
    }
  }

  lemma PipeFound(s: string)
    requires !PipeFree(s)
    ensures FirstPipe(s) < |s|
  {
  }

  lemma PushRight(codec: Codec, e: Event, k: nat, x: string, y: string) returns (f: Event)
    requires 2 <= k <= 5 && Fields(codec, e)[k] == x + [SEP] + y
    ensures Twins(codec, e, f)
  {
    hide Join;
    var fs := Fields(codec, e);
    var gs := fs[k := x][k + 1 := y + [SEP] + fs[k + 1]];
    f := WithTexts(e, gs);
    ShiftRight(fs[..k], x, y, fs[k + 1], fs[k + 2..]);
    assert fs == fs[..k] + [x + [SEP] + y, fs[k + 1]] + fs[k + 2..];
    assert gs == fs[..k] + [x, y + [SEP] + fs[k + 1]] + fs[k + 2..];
    assert Fields(codec, f) == gs;
    assert |gs[k]| < |fs[k]|;
  }

  lemma PushLeft(codec: Codec, e: Event, x: string, y: string) returns (f: Event)
    requires Fields(codec, e)[6] == x + [SEP] + y
    ensures Twins(codec, e, f)
  {
    hide Join;
    var fs := Fields(codec, e);
    var gs := fs[5 := fs[5] + [SEP] + x][6 := y];
    f := WithTexts(e, gs);
    ShiftRight(fs[..5], fs[5], x, y, fs[7..]);
    assert fs == fs[..5] + [fs[5], x + [SEP] + y] + fs[7..];
    assert gs == fs[..5] + [fs[5] + [SEP] + x, y] + fs[7..];
    assert Fields(codec, f) == gs;
    assert |gs[6]| < |fs[6]|;
  }

  function WithTexts(e: Event, fs: seq<string>): Event
    requires |fs| == 9
  {
    e.(actor := fs[2], action := fs[3], target := fs[4], outcome := fs[5], kind := fs[6])
  }

  // A UUID between two separators of Detail can be read as the case ID.
  lemma DetailTwin(codec: Codec, e: Event) returns (f: Event)
    requires !NoHiddenUuid(e.detail)
    ensures Twins(codec, e, f)
  {
    var ts := Split(e.detail);
    var k :| 0 <= k < |ts| - 1 && IsUuidText(ts[k]);
    var kind, detail := Join([e.kind, e.caseId] + ts[..k]), Join(ts[k + 1..]);
    f := e.(kind := kind, caseId := ts[k], detail := detail);
    DetailTwinTokens(Fields(codec, e)[..6], e.kind, e.caseId, e.detail, k);
    assert Fields(codec, e) == Fields(codec, e)[..6] + [e.kind, e.caseId, e.detail];
    assert Fields(codec, f) == Fields(codec, e)[..6] + [kind, f.caseId, detail];
  }

  lemma DetailTwinTokens(pre: seq<string>, kind: string, u: Uuid, d: string, k: nat)
    requires k + 1 < |Split(d)| && IsUuidText(Split(d)[k])
    ensures var ts := Split(d);
      var kind', d' := Join([kind, u] + ts[..k]), Join(ts[k + 1..]);
      kind' != kind && Join(pre + [kind', ts[k], d']) == Join(pre + [kind, u, d])
  {
    hide Split, Join, Tokens, IsUuidText;
    var ts := Split(d);
    var kind', d' := Join([kind, u] + ts[..k]), Join(ts[k + 1..]);
    MergedTokens(kind, u, d, k);
    assert |Split(kind')| > |Split(kind)|;
    UuidPipeFree(u);
    UuidPipeFree(ts[k]);
    TailTokens(pre + [kind], u, d);
    TailTokens(pre + [kind'], ts[k], d');
    TokensConcat(pre, [kind]);
    TokensConcat(pre, [kind']);
    TokensOne(kind);
    TokensOne(kind');
    Regroup(Tokens(pre), Split(kind), u, ts, k);
    assert pre + [kind] + [u, d] == pre + [kind, u, d];
    assert pre + [kind'] + [ts[k], d'] == pre + [kind', ts[k], d'];
    SameTokensSameText(pre + [kind, u, d], pre + [kind', ts[k], d']);
  }

  lemma Regroup(pre: seq<string>, kind: seq<string>, u: string, ts: seq<string>, k: nat)
    requires k < |ts|
    ensures pre + kind + [u] + ts == pre + (kind + [u] + ts[..k]) + [ts[k]] + ts[k + 1..]
  {
    assert ts == ts[..k] + [ts[k]] + ts[k + 1..];
  }

  lemma MergedTokens(kind: string, u: Uuid, d: string, k: nat)
    requires k + 1 < |Split(d)|
    ensures var ts := Split(d);
      && Split(Join([kind, u] + ts[..k])) == Split(kind) + [u] + ts[..k]
      && Split(Join(ts[k + 1..])) == ts[k + 1..]
  {
    var ts := Split(d);
    SplitTokensPipeFree(d);
    TokensPipeFree(ts[..k]);
    TokensPipeFree(ts[k + 1..]);
    UuidPipeFree(u);
    SplitPipeFree(u);
    SplitJoin([kind, u] + ts[..k]);
    SplitJoin(ts[k + 1..]);
    TokensConcat([kind, u], ts[..k]);
    TokensConcat([kind], [u]);
    assert [kind] + [u] == [kind, u];
    TokensOne(kind);
    TokensOne(u);
  }

  // An ambiguous event has a twin: other content, same digest.
  lemma AmbiguousTwin(codec: Codec, e: Event) returns (f: Event)
    requires !Unambiguous(e)
    ensures Twins(codec, e, f) && f != e
  {
    var fs := Fields(codec, e);
    if k :| 2 <= k <= 6 && !PipeFree(fs[k]) {
      f := PipeTwin(codec, e, k);
    } else {
      assert PipeFree(fs[2]) && PipeFree(fs[3]) && PipeFree(fs[4]) && PipeFree(fs[5]) && PipeFree(fs[6]);
      f := DetailTwin(codec, e);
    }
  }

  // The digest determines the event exactly when the event is unambiguous.
  lemma DigestDeterminesIff(codec: Codec, e: Event)
    requires codec.WellFormed()
    ensures Unambiguous(e) <==> forall f: Event :: !Twins(codec, e, f)
  {
    if Unambiguous(e) {
      forall f: Event ensures !Twins(codec, e, f) {
        if Twins(codec, e, f) { DigestInjective(codec, e, f); }
      }
    } else {
      var f := AmbiguousTwin(codec, e);
    }
  }

  // ---------- the preimage is uniquely decodable ----------

  predicate PrevShape(prev: string) {
    prev == "" || IsHexDigest(prev)
  }

  // '-' at index 8 of the ID tells an empty predecessor from a digest, the
  // fixed lengths cut off both, and the length frame yields the digest text.
  lemma PreimageInjective(p: string, i: Uuid, d: string, q: string, j: Uuid, g: string)
    requires PrevShape(p) && PrevShape(q)
    requires Preimage(p, i, d) == Preimage(q, j, g)
    ensures p == q && i == j && d == g
  {
    var x, y := Preimage(p, i, d), Preimage(q, j, g);
    PreimageNinthChar(p, i, d);
    PreimageNinthChar(q, j, g);
    var n := |p|;
    assert |q| == n;
    assert p == x[..n] && q == y[..n];
    assert i == x[n..n + 36] && j == y[n..n + 36];
    assert Itoa(|d|) + d == x[n + 36..] && Itoa(|g|) + g == y[n + 36..];
    LengthFrameInjective(d, g);
  }

  lemma PreimageNinthChar(p: string, i: Uuid, d: string)
    requires PrevShape(p)
    ensures |Preimage(p, i, d)| > 8
    ensures p == "" <==> Preimage(p, i, d)[8] == '-'
  {
    if p != "" {
      assert Preimage(p, i, d)[8] == p[8] && IsHexChar(p[8]);
    }
  }

  // ---------- VerifyChain ----------

  // Row i carries on from row i-1; the first row is its own anchor.
  predicate LinkOk(codec: Codec, events: seq<Event>, i: nat)
    requires i < |events|
  {
    && (i > 0 ==> events[i].prevHash == events[i - 1].chainHash)
    && events[i].chainHash == ChainHash(codec, events[i].prevHash, events[i])
  }

  predicate Linked(codec: Codec, events: seq<Event>) {
    forall i :: 0 <= i < |events| ==> LinkOk(codec, events, i)
  }

  predicate Genesis(events: seq<Event>) {
    events == [] || events[0].prevHash == ""
  }

  datatype Cause = PrevHashMismatch | ChainHashMismatch | NotGenesis
  datatype Verdict = Intact | Broken(at: nat, cause: Cause)

  // What the loop has to report: the first row whose linkage fails, and why.
  predicate ReportsFirstBreak(codec: Codec, events: seq<Event>, v: Verdict) {
    match v
    case Intact => Linked(codec, events)
    case Broken(at, cause) =>
      && at < |events|
      && (forall i :: 0 <= i < at ==> LinkOk(codec, events, i))
      && !LinkOk(codec, events, at)
      && (cause == PrevHashMismatch <==> at > 0 && events[at].prevHash != events[at - 1].chainHash)
      && (cause != PrevHashMismatch ==> cause == ChainHashMismatch)
  }

  method VerifyChain(codec: Codec, events: seq<Event>) returns (v: Verdict)
    ensures ReportsFirstBreak(codec, events, v)
    ensures v.Intact? <==> Linked(codec, events)
  {
    if |events| == 0 { return Intact; }
    var prevHash := events[0].prevHash;
    for i := 0 to |events|
      invariant forall k :: 0 <= k < i ==> LinkOk(codec, events, k)
      invariant prevHash == if i == 0 then events[0].prevHash else events[i - 1].chainHash
    {
      if events[i].prevHash != prevHash { return Broken(i, PrevHashMismatch); }
      var expected := ChainHash(codec, prevHash, events[i]);
      if events[i].chainHash != expected { return Broken(i, ChainHashMismatch); }
      prevHash := events[i].chainHash;
    }
    v := Intact;
  }

  method VerifyGenesisChain(codec: Codec, events: seq<Event>) returns (v: Verdict)
    ensures v.Intact? <==> Linked(codec, events) && Genesis(events)
    ensures !Genesis(events) <==> v == Broken(0, NotGenesis)
    ensures Genesis(events) ==> ReportsFirstBreak(codec, events, v)
  {
    if |events| > 0 && events[0].prevHash != "" { return Broken(0, NotGenesis); }
    v := VerifyChain(codec, events);
  }

  // ---------- BuildChain ----------

  function Chained(codec: Codec, prev: string, events: seq<Event>): (out: seq<Event>)
    ensures |out| == |events|
    decreases |events|
  {
    if events == [] then []
    else
      var e := Restamp(codec, prev, events[0]);
      [e] + Chained(codec, e.chainHash, events[1..])
  }

  function Restamp(codec: Codec, prev: string, e: Event): Event {
    var f := e.(prevHash := prev);
    f.(chainHash := ChainHash(codec, prev, f))
  }

  lemma RestampHashes(codec: Codec, prev: string, e: Event)
    ensures var f := Restamp(codec, prev, e); f.prevHash == prev && f.chainHash == ChainHash(codec, prev, f)
  {
  }

  lemma {:induction false} ChainedStep(codec: Codec, prev: string, events: seq<Event>, i: nat)
    requires i < |events|
    decreases i
    ensures var out := Chained(codec, prev, events);
      out[i] == Restamp(codec, if i == 0 then prev else out[i - 1].chainHash, events[i])
  {
    if i > 0 {
      var e := Restamp(codec, prev, events[0]);
      ChainedStep(codec, e.chainHash, events[1..], i - 1);
    }
  }

  method BuildChain(codec: Codec, events: array<Event>)
    modifies events
    ensures events[..] == Chained(codec, "", old(events[..]))
  {
    var prevHash := "";
    ghost var was := events[..];
    ghost var out := Chained(codec, "", was);
    for i := 0 to events.Length
      invariant forall k :: 0 <= k < i ==> events[k] == out[k]
      invariant forall k :: i <= k < events.Length ==> events[k] == was[k]
      invariant prevHash == if i == 0 then "" else out[i - 1].chainHash
    {
      ChainedStep(codec, "", was, i);
      events[i] := events[i].(prevHash := prevHash);
      events[i] := events[i].(chainHash := ChainHash(codec, prevHash, events[i]));
      prevHash := events[i].chainHash;
    }
    assert events[..] == out;
  }

  // BuildChain makes a verified genesis chain of the same events, and a list is
  // a verified genesis chain exactly when building it again changes nothing.
  lemma BuildChainVerifies(codec: Codec, events: seq<Event>)
    ensures var out := Chained(codec, "", events);
      && Linked(codec, out) && Genesis(out)
      && forall i :: 0 <= i < |events| ==> SameContent(out[i], events[i])
  {
    forall i | 0 <= i < |events|
      ensures var out := Chained(codec, "", events);
        LinkOk(codec, out, i) && SameContent(out[i], events[i]) && (i == 0 ==> out[i].prevHash == "")
    {
      ChainedStep(codec, "", events, i);
    }
  }

  lemma {:induction false} VerifiedIffRebuildFixes(codec: Codec, events: seq<Event>)
    ensures Linked(codec, events) && Genesis(events) <==> Chained(codec, "", events) == events
  {
    hide ChainHash, Chained;
    var out := Chained(codec, "", events);
    BuildChainVerifies(codec, events);
    if Linked(codec, events) && Genesis(events) {
      var i := 0;
      while i < |events|
        invariant 0 <= i <= |events| && forall k :: 0 <= k < i ==> out[k] == events[k]
      {
        ChainedStep(codec, "", events, i);
        assert LinkOk(codec, events, i);
        i := i + 1;
      }
      assert out == events;
    }
  }

  // ---------- what the tail hash commits to ----------

  function EventHash(codec: Codec, e: Event): string {
    ChainHash(codec, e.prevHash, e)
  }

  function EventPreimage(codec: Codec, e: Event): string {
    Preimage(e.prevHash, e.id, ContentDigest(codec, e))
  }

  // Two rows that show a SHA-256 collision: different preimages, one sum.
  predicate Collide(codec: Codec, e: Event, f: Event) {
    EventHash(codec, e) == EventHash(codec, f) && EventPreimage(codec, e) != EventPreimage(codec, f)
  }

  ghost predicate NoCollision(codec: Codec, a: seq<Event>, b: seq<Event>) {
    forall i, j :: 0 <= i < |a| && 0 <= j < |b| ==> !Collide(codec, a[i], b[j])
  }

  predicate VerifiedGenesis(codec: Codec, events: seq<Event>) {
    Linked(codec, events) && Genesis(events)
  }

  lemma LinkedPrevShape(codec: Codec, a: seq<Event>, i: nat)
    requires codec.WellFormed() && Linked(codec, a) && Genesis(a) && i < |a|
    ensures PrevShape(a[i].prevHash) && (a[i].prevHash == "" <==> i == 0)
  {
    assert LinkOk(codec, a, i);
    if i > 0 { assert LinkOk(codec, a, i - 1); }
  }

  // Cutting rows off at either end goes unnoticed.
  lemma SegmentLinked(codec: Codec, rows: seq<Event>, lo: nat, hi: nat)
    requires Linked(codec, rows) && lo <= hi <= |rows|
    ensures Linked(codec, rows[lo..hi])
  {
    hide Preimage, ContentDigest;
    var s := rows[lo..hi];
    forall i | 0 <= i < |s| ensures LinkOk(codec, s, i) {
      assert LinkOk(codec, rows, lo + i);
    }
  }

  lemma LinkedSuffix(codec: Codec, rows: seq<Event>, k: nat)
    requires Linked(codec, rows) && k <= |rows|
    ensures Linked(codec, rows[k..])
  {
    hide Linked;
    SegmentLinked(codec, rows, k, |rows|);
    assert rows[k..] == rows[k..|rows|];
  }

  lemma SameHashSameInput(codec: Codec, e: Event, f: Event)
    requires PrevShape(e.prevHash) && PrevShape(f.prevHash)
    requires EventHash(codec, e) == EventHash(codec, f) && !Collide(codec, e, f)
    ensures e.prevHash == f.prevHash && e.id == f.id && ContentDigest(codec, e) == ContentDigest(codec, f)
  {
    PreimageInjective(e.prevHash, e.id, ContentDigest(codec, e), f.prevHash, f.id, ContentDigest(codec, f));
  }

  lemma EqualHashEqualEvent(codec: Codec, e: Event, f: Event)
    requires codec.WellFormed() && Unambiguous(e)
    requires PrevShape(e.prevHash) && PrevShape(f.prevHash)
    requires e.chainHash == EventHash(codec, e) && f.chainHash == EventHash(codec, f)
    requires e.chainHash == f.chainHash && !Collide(codec, e, f)
    ensures e == f
  {
    SameHashSameInput(codec, e, f);
    DigestInjective(codec, e, f);
  }

  lemma {:induction false} TailHashCommits(codec: Codec, a: seq<Event>, b: seq<Event>)
    requires codec.WellFormed()
    requires VerifiedGenesis(codec, a) && VerifiedGenesis(codec, b) && |a| > 0 && |b| > 0
    requires NoCollision(codec, a, b)
    requires AllUnambiguous(a)
    requires a[|a| - 1].chainHash == b[|b| - 1].chainHash
    ensures a == b
    decreases |a|
  {
    hide ContentDigest, Preimage, Unambiguous, SameContent, IsHexDigest;
    var m, n := |a| - 1, |b| - 1;
    var e, f := a[m], b[n];
    assert LinkOk(codec, a, m) && LinkOk(codec, b, n);
    LinkedPrevShape(codec, a, m);
    LinkedPrevShape(codec, b, n);
    EqualHashEqualEvent(codec, e, f);
    if m > 0 {
      SegmentLinked(codec, a, 0, m);
      SegmentLinked(codec, b, 0, n);
      assert NoCollision(codec, a[..m], b[..n]);
      TailHashCommits(codec, a[..m], b[..n]);
    }
    assert a == a[..m] + [e] && b == b[..n] + [f];
  }

  predicate AllUnambiguous(a: seq<Event>) {
    forall i :: 0 <= i < |a| ==> Unambiguous(a[i])
  }

  ghost predicate Rival(codec: Codec, a: seq<Event>, b: seq<Event>)
    requires |a| > 0
  {
    && |b| > 0 && VerifiedGenesis(codec, b)
    && b[|b| - 1].chainHash == a[|a| - 1].chainHash
    && NoCollision(codec, a, b)
  }

  // The tail hash of a is a commitment: no other chain that verifies ends in it.
  ghost predicate Binding(codec: Codec, a: seq<Event>)
    requires |a| > 0
  {
    forall b: seq<Event> :: Rival(codec, a, b) ==> b == a
  }

  // Replacing one row by a twin leaves every hash as it was.
  lemma TwinChain(codec: Codec, a: seq<Event>, k: nat, f: Event)
    requires VerifiedGenesis(codec, a) && k < |a| && Twins(codec, a[k], f)
    ensures VerifiedGenesis(codec, a[k := f])
    ensures NoCollision(codec, a, a) ==> NoCollision(codec, a, a[k := f])
  {
    var b := a[k := f];
    forall i | 0 <= i < |b| ensures LinkOk(codec, b, i) {
      assert LinkOk(codec, a, i);
    }
    if NoCollision(codec, a, a) {
      forall i, j | 0 <= i < |a| && 0 <= j < |b| ensures !Collide(codec, a[i], b[j]) {
        assert !Collide(codec, a[i], a[j]);
      }
    }
  }

  lemma TailHashBindsIff(codec: Codec, a: seq<Event>)
    requires codec.WellFormed() && |a| > 0
    requires VerifiedGenesis(codec, a) && NoCollision(codec, a, a)
    ensures Binding(codec, a) <==> AllUnambiguous(a)
  {
    hide ContentDigest, Preimage, Unambiguous, SameContent, IsHexDigest;
    if AllUnambiguous(a) {
      forall b: seq<Event> | Rival(codec, a, b) ensures b == a {
        TailHashCommits(codec, a, b);
      }
    } else {
      var k :| 0 <= k < |a| && !Unambiguous(a[k]);
      var f := AmbiguousTwin(codec, a[k]);
      TwinChain(codec, a, k, f);
      var b := a[k := f];
      assert b[|b| - 1].chainHash == a[|a| - 1].chainHash;
      assert Rival(codec, a, b);
      assert b[k] != a[k];
    }
  }

  // ---------- which changes VerifyChain notices ----------

  // No two rows carry one hash, and the anchor is none of them.
  ghost predicate FreshHashes(events: seq<Event>) {
    && (forall i, j :: 0 <= i < j < |events| ==> events[i].chainHash != events[j].chainHash)
    && (forall i :: 0 <= i < |events| ==> events[0].prevHash != events[i].chainHash)
  }

  predicate DistinctIds(events: seq<Event>) {
    forall i, j :: 0 <= i < j < |events| ==> events[i].id != events[j].id
  }

  lemma DistinctHashes(codec: Codec, g: seq<Event>, i: nat, j: nat)
    requires codec.WellFormed() && VerifiedGenesis(codec, g)
    requires NoCollision(codec, g, g) && DistinctIds(g) && i < j < |g|
    ensures g[i].chainHash != g[j].chainHash
  {
    LinkedPrevShape(codec, g, i);
    LinkedPrevShape(codec, g, j);
    assert LinkOk(codec, g, i) && LinkOk(codec, g, j);
    if g[i].chainHash == g[j].chainHash {
      assert !Collide(codec, g[i], g[j]);
      SameHashSameInput(codec, g[i], g[j]);
    }
  }

  // What survives a purge of a full history has fresh hashes.
  lemma {:induction false} SurvivorsHaveFreshHashes(codec: Codec, g: seq<Event>, k: nat)
    requires codec.WellFormed() && VerifiedGenesis(codec, g)
    requires NoCollision(codec, g, g) && DistinctIds(g) && k <= |g|
    ensures Linked(codec, g[k..]) && FreshHashes(g[k..])
  {
    hide ContentDigest, Preimage;
    var s := g[k..];
    LinkedSuffix(codec, g, k);
    forall i, j | 0 <= i < j < |s| ensures s[i].chainHash != s[j].chainHash {
      DistinctHashes(codec, g, k + i, k + j);
    }
    forall i | 0 <= i < |s| ensures s[0].prevHash != s[i].chainHash {
      LinkedPrevShape(codec, g, k);
      assert LinkOk(codec, g, k + i);
      if k > 0 {
        assert LinkOk(codec, g, k);
        DistinctHashes(codec, g, k - 1, k + i);
      }
    }
  }

  // Rows of `events` in any order, with any omissions and repetitions.
  function Select(events: seq<Event>, idx: seq<nat>): (out: seq<Event>)
    requires forall k :: 0 <= k < |idx| ==> idx[k] < |events|
    ensures |out| == |idx| && forall k :: 0 <= k < |idx| ==> out[k] == events[idx[k]]
  {
    seq(|idx|, k requires 0 <= k < |idx| => events[idx[k]])
  }

  predicate Consecutive(idx: seq<nat>) {
    forall k :: 0 <= k < |idx| - 1 ==> idx[k + 1] == idx[k] + 1
  }

  // Deletion, reordering and duplication at once: a selection of verified rows
  // still verifies exactly when it is a contiguous segment.
  lemma SelectionVerifiesIff(codec: Codec, a: seq<Event>, idx: seq<nat>)
    requires Linked(codec, a) && FreshHashes(a)
    requires forall k :: 0 <= k < |idx| ==> idx[k] < |a|
    ensures Linked(codec, Select(a, idx)) <==> Consecutive(idx)
  {
    var b := Select(a, idx);
    if Linked(codec, b) {
      forall k | 0 <= k < |idx| - 1 ensures idx[k + 1] == idx[k] + 1 {
        assert LinkOk(codec, b, k + 1);
        assert a[idx[k + 1]].prevHash == a[idx[k]].chainHash;
        assert LinkOk(codec, a, idx[k + 1]);
      }
    }
    if Consecutive(idx) {
      forall k | 0 <= k < |b| ensures LinkOk(codec, b, k) {
        assert LinkOk(codec, a, idx[k]);
        if k > 0 { assert idx[k - 1 + 1] == idx[k - 1] + 1; }
      }
    }
  }

  lemma JoinPrefixed(p: string, t: string, ts: seq<string>)
    ensures p + Join([t] + ts) == Join([p + t] + ts)
  {
    hide Join;
    JoinCons(t, ts);
    JoinCons(p + t, ts);
    if ts != [] { assert p + (t + [SEP] + Join(ts)) == p + t + [SEP] + Join(ts); }
  }

  function FrameOf(codec: Codec, e: Event): string {
    e.prevHash + (e.id + Itoa(|ContentDigest(codec, e)|))
  }

  lemma PreimageFields(codec: Codec, e: Event)
    ensures EventPreimage(codec, e) ==
            Join([FrameOf(codec, e) + e.tenant] + Fields(codec, e)[1..7] + [e.caseId, e.detail])
  {
    hide Join, Itoa;
    var fs, d := Fields(codec, e), ContentDigest(codec, e);
    var rest := fs[1..7] + [e.caseId, e.detail];
    assert fs == [e.tenant] + rest;
    assert EventPreimage(codec, e) == FrameOf(codec, e) + d;
    JoinPrefixed(FrameOf(codec, e), e.tenant, rest);
    assert [FrameOf(codec, e) + e.tenant] + rest == [FrameOf(codec, e) + e.tenant] + fs[1..7] + [e.caseId, e.detail];
  }

  // The text hashed for an unambiguous first event has one reading, whatever
  // stands in for the predecessor of the other.
  lemma GenesisReadOneWay(codec: Codec, a: Event, e: Event)
    requires codec.WellFormed() && Unambiguous(a) && a.prevHash == ""
    requires EventPreimage(codec, a) == EventPreimage(codec, e)
    ensures e.prevHash == "" && e.id == a.id && ContentDigest(codec, e) == ContentDigest(codec, a)
  {
    hide Join, Itoa, IsUuidText, PipeFree;
    var x, y := FrameOf(codec, a) + a.tenant, FrameOf(codec, e) + e.tenant;
    var fs, gs := [x] + Fields(codec, a)[1..7], [y] + Fields(codec, e)[1..7];
    PreimageFields(codec, a);
    PreimageFields(codec, e);
    FrameFieldsPlain(codec, a);
    FieldsDecodable(fs, a.caseId, a.detail, gs, e.caseId, e.detail);
    assert x == fs[0] == gs[0] == y;
    assert Fields(codec, a)[1..7] == fs[1..] && Fields(codec, e)[1..7] == gs[1..];
    SameFrames(codec, a, e);
  }

  lemma FrameFieldsPlain(codec: Codec, a: Event)
    requires codec.WellFormed() && Unambiguous(a) && a.prevHash == ""
    ensures forall i :: 0 <= i < 7 ==> PipeFree(([FrameOf(codec, a) + a.tenant] + Fields(codec, a)[1..7])[i])
  {
    hide Join;
    var fs := [FrameOf(codec, a) + a.tenant] + Fields(codec, a)[1..7];
    UuidPipeFree(a.id);
    UuidPipeFree(a.tenant);
    ItoaPipeFree(|ContentDigest(codec, a)|);
    forall i | 0 <= i < 7 ensures PipeFree(fs[i]) {
      if i > 0 { assert fs[i] == Fields(codec, a)[i]; }
    }
  }

  lemma SameFrames(codec: Codec, a: Event, e: Event)
    requires a.prevHash == "" && a.caseId == e.caseId && a.detail == e.detail
    requires Fields(codec, a)[1..7] == Fields(codec, e)[1..7]
    requires FrameOf(codec, a) + a.tenant == FrameOf(codec, e) + e.tenant
    ensures e.prevHash == "" && e.id == a.id && ContentDigest(codec, e) == ContentDigest(codec, a)
  {
    hide Join, Itoa, FrameOf;
    var p, q := FrameOf(codec, a), FrameOf(codec, e);
    var s := p + a.tenant;
    assert |a.tenant| == |e.tenant| == 36;
    assert s[|s| - 36..] == a.tenant && s[|s| - 36..] == e.tenant;
    assert p == s[..|s| - 36] == q;
    var rest := Fields(codec, a)[1..7] + [a.caseId, a.detail];
    assert Fields(codec, a) == [a.tenant] + rest && Fields(codec, e) == [e.tenant] + rest;
    SameIdPart(codec, a, e);
  }

  lemma SameIdPart(codec: Codec, a: Event, e: Event)
    requires a.prevHash == "" && FrameOf(codec, a) == FrameOf(codec, e)
    requires ContentDigest(codec, e) == ContentDigest(codec, a)
    ensures e.prevHash == "" && e.id == a.id
  {
    hide Join, Itoa;
    var l := Itoa(|ContentDigest(codec, a)|);
    var s := a.id + l;
    assert FrameOf(codec, a) == s;
    assert FrameOf(codec, e) == e.prevHash + e.id + l;
    assert |a.id| == |e.id| == 36;
    assert a.id == s[..36] && e.prevHash == "";
  }

  // Rewriting one row, hashes included, goes unnoticed exactly when the row is
  // the last one, its hash was recomputed, and it still names the predecessor
  // it has, if it has one.
  lemma SingleEditUnnoticedIff(codec: Codec, a: seq<Event>, i: nat, e: Event)
    requires codec.WellFormed() && VerifiedGenesis(codec, a) && i < |a|
    requires e != a[i] && Unambiguous(a[i]) && !Collide(codec, a[i], e)
    ensures Linked(codec, a[i := e]) <==>
      && i == |a| - 1
      && (i > 0 ==> e.prevHash == a[i].prevHash)
      && e.chainHash == ChainHash(codec, e.prevHash, e)
  {
    hide ContentDigest, Preimage, Unambiguous, SameContent, IsHexDigest;
    var b := a[i := e];
    assert LinkOk(codec, a, i);
    LinkedPrevShape(codec, a, i);
    if Linked(codec, b) {
      assert LinkOk(codec, b, i);
      if i + 1 < |a| {
        assert LinkOk(codec, b, i + 1) && LinkOk(codec, a, i + 1);
        if i == 0 { GenesisReadOneWay(codec, a[i], e); }
        EqualHashEqualEvent(codec, a[i], e);
      }
    }
    if i == |a| - 1 && (i > 0 ==> e.prevHash == a[i].prevHash) && e.chainHash == ChainHash(codec, e.prevHash, e) {
      forall k | 0 <= k < |b| ensures LinkOk(codec, b, k) {
        assert LinkOk(codec, a, k);
      }
    }
  }

  // So anyone who can write the last event of a verified chain can give it any
  // other detail.
  lemma LastEventCanBeRewritten(codec: Codec, a: seq<Event>, detail: string)
    requires VerifiedGenesis(codec, a) && a != [] && detail != a[|a| - 1].detail
    ensures var n := |a| - 1; var e := Restamp(codec, a[n].prevHash, a[n].(detail := detail));
      e != a[n] && e.detail == detail && VerifiedGenesis(codec, a[n := e])
  {
    hide ContentDigest, Preimage;
    var n := |a| - 1;
    var e := Restamp(codec, a[n].prevHash, a[n].(detail := detail));
    RestampHashes(codec, a[n].prevHash, a[n].(detail := detail));
    var b := a[n := e];
    forall k | 0 <= k < |b| ensures LinkOk(codec, b, k) {
      assert LinkOk(codec, a, k);
    }
  }

  // ---------- a time layout that tells all times apart ----------

  function SampleTimeText(t: Time): string {
    if t < 0 then "-" + Itoa(-t) else Itoa(t)
  }

  lemma SampleTimes()
    ensures forall t :: PipeFree(SampleTimeText(t))
    ensures forall t, u :: SampleTimeText(t) == SampleTimeText(u) ==> t == u
  {
    forall t ensures PipeFree(SampleTimeText(t)) {
      if t < 0 { ItoaPipeFree(-t); } else { ItoaPipeFree(t); }
    }
    forall t, u | SampleTimeText(t) == SampleTimeText(u) ensures t == u {
      SampleTimeTextInjective(t, u);
    }
  }

  lemma SampleTimeTextInjective(t: Time, u: Time)
    requires SampleTimeText(t) == SampleTimeText(u)
    ensures t == u
  {
    var x, y := SampleTimeText(t), SampleTimeText(u);
    SampleTimeTextSign(t);
    SampleTimeTextSign(u);
    if t < 0 {
      assert x[1..] == Itoa(-t) && y[1..] == Itoa(-u);
      ItoaInjective(-t, -u);
    } else {
      ItoaInjective(t, u);
    }
  }

  lemma SampleTimeTextSign(t: Time)
    ensures var x := SampleTimeText(t); |x| > 0 && (t < 0 <==> x[0] == '-')
  {
    ItoaDigits(if t < 0 then -t else t);
  }
}

/**
  How the witness judges one push: Check, the rule every beat answers to, and CheckPush, which holds
  the push's tree to the tree the witness remembers. Both are pure, so they are functions here.
*/
module PushRules {
  import opened Options
  import opened SnocLists
  import opened Merkle

  // ---------------------------------------------------------------------------------------------
  // Data
  // ---------------------------------------------------------------------------------------------

  /** A member that should be a digest: lowercase hex of one, or any other text. */
  datatype Text = Hex(hash: Hash) | Other(text: string)

  const BLANK := Other("")

  /** Go's zero time. Every instant a clock reads is later. */
  const ZERO_TIME := 0

  const MAX_PROOF_HASHES := 64
  const MAX_BEAT_JUMP := 0x100_0000_0000
  const MAX_HEAD_LEN := 128
  const RECENT_CAP := 1000

  /** 24 hours, in seconds. */
  const STALE_AFTER := 24 * 3600

  datatype Beat = Beat(beat: int, seq_: int, head: Text)

  datatype Push = Push(installID: string, beat: int, seq_: int, head: Text, size: int, root: Text,
                       fromSize: int, proof: List<Text>)
  {
    function AsBeat(): Beat { Beat(beat, seq_, head) }
  }

  datatype Observed = Observed(seq_: int, head: Text)

  /** signer is the key that signed the checkpoint, none for one that was never saved. */
  datatype Checkpoint = Checkpoint(
    server: string, installID: string, size: int, root: Text,
    lastBeat: int, lastSeq: int, lastHead: Text,
    recent: map<int, Observed>, positions: map<int, Text>,
    observedAt: int, signer: Option<nat>)

  /** Findings, each with the values its text names. */
  datatype Finding =
    | MalformedFeed(served: Beat)
    | EmptyFeed
    | MissingBeat(after: int, oldest: int)
    | RewrittenBeat(beat: int, seen: Observed, told: Observed)
    | RewrittenPosition(position: int, link: Text, beat: int, claimed: Text)
    | SeqRegression(behind: int, beat: int, position: int)
    | HeadRegression(behind: int, newest: Option<int>)
    | StalledFeed(beat: int, since: int, now: int)
    | RewrittenTree(base: int, size: int, root: Text, heldRoot: Text)
    | DuplicateBeat(beat: int, heldSize: int, size: int)
    | FirstRoot(size: int, root: Text)

  datatype Kind =
    | Malformed_Feed | Empty_Feed | Missing_Beat | Rewritten_Beat | Rewritten_History | Seq_Regression
    | Head_Regression | Stalled_Feed | Duplicate_Beat | First_Root | Memory_Restored | Silent_Install

  function KindOf(f: Finding): Kind {
    match f
    case MalformedFeed(_) => Malformed_Feed
    case EmptyFeed => Empty_Feed
    case MissingBeat(_, _) => Missing_Beat
    case RewrittenBeat(_, _, _) => Rewritten_Beat
    case RewrittenPosition(_, _, _, _) => Rewritten_History
    case SeqRegression(_, _, _) => Seq_Regression
    case HeadRegression(_, _) => Head_Regression
    case StalledFeed(_, _, _) => Stalled_Feed
    case RewrittenTree(_, _, _, _) => Rewritten_History
    case DuplicateBeat(_, _, _) => Duplicate_Beat
    case FirstRoot(_, _) => First_Root
  }

  /**
    Two findings count as one when these are equal: members a repeat of the same trouble may vary are
    blanked, and a kind with no such members keeps them all.
  */
  function Identity(f: Finding): Finding {
    match f
    case MissingBeat(after, _) => MissingBeat(after, 0)
    case RewrittenPosition(position, _, _, _) => RewrittenPosition(position, BLANK, 0, BLANK)
    case SeqRegression(behind, _, _) => SeqRegression(behind, 0, 0)
    case HeadRegression(behind, _) => HeadRegression(behind, None)
    case StalledFeed(beat, _, _) => StalledFeed(beat, 0, 0)
    case RewrittenTree(base, _, _, _) => RewrittenTree(base, 0, BLANK, BLANK)
    case DuplicateBeat(beat, heldSize, _) => DuplicateBeat(beat, heldSize, 0)
    case FirstRoot(size, _) => FirstRoot(size, BLANK)
    case _ => f
  }

  /** The finding kinds that speak of the witness's coverage. Every other kind is a refusal. */
  predicate IsNote(kind: Kind) {
    kind.First_Root? || kind.Missing_Beat? || kind.Memory_Restored? || kind.Silent_Install?
  }

  datatype Error = Malformed | ProofBase(held: int) | Stale(held: int, claimed: int) | WrongMemory

  datatype Judgement = Judged(next: Checkpoint, found: seq<Finding>) | Failed(error: Error)

  // ---------------------------------------------------------------------------------------------
  // Check, for a feed of one beat
  // ---------------------------------------------------------------------------------------------

  /** Server names drop trailing slashes. An install id carries no scheme or host to lower. */
  function NormalizeServer(base: string): string {
    if base != "" && base[|base| - 1] == '/' then NormalizeServer(base[..|base| - 1]) else base
  }

  predicate PlausibleHead(head: Text) {
    head.Hex? || 1 <= |head.text| <= MAX_HEAD_LEN
  }

  predicate Plausible(b: Beat) {
    1 <= b.beat <= MAX_BEAT_JUMP && 1 <= b.seq_ <= MAX_BEAT_JUMP && PlausibleHead(b.head)
  }

  /** Keeps the newest cap entries: those with fewer than cap newer ones. */
  function KeepNewest<T>(m: map<int, T>, cap: nat): (kept: map<int, T>)
    ensures kept.Keys <= m.Keys && forall k :: k in kept ==> kept[k] == m[k]
    ensures forall k, dropped :: k in kept && dropped in m && dropped !in kept ==> dropped < k
  {
    var newer := (k: int) => set j | j in m && k < j;
    assert forall i, j :: i <= j ==> newer(j) <= newer(i);
    var kept := map k | k in m && |newer(k)| < cap :: m[k];
    assert forall k, d :: k in kept && d in m && d !in kept ==> d < k by {
      forall k, d | k in kept && d in m && d !in kept ensures d < k {
        if k <= d {
          SubsetSmaller(newer(d), newer(k));
        }
      }
    }
    kept
  }

  lemma {:induction false} SubsetSmaller<T>(a: set<T>, b: set<T>)
    requires a <= b
    ensures |a| <= |b|
  {
    if x :| x in a {
      SubsetSmaller(a - {x}, b - {x});
    }
  }

  /** What a fresh checkpoint carries over from the one before it. */
  function Carried(prev: Option<Checkpoint>, server: string, now: int): Checkpoint {
    var blank := Checkpoint(NormalizeServer(server), "", 0, BLANK, 0, 0, BLANK, map[], map[], now, None);
    if prev.None? then blank
    else
      var p := prev.value;
      blank.(lastBeat := p.lastBeat, lastSeq := p.lastSeq, lastHead := p.lastHead,
             recent := p.recent, positions := p.positions)
  }

  /** A gap since the last witnessed beat. */
  function Gap(prev: Option<Checkpoint>, b: Beat): seq<Finding> {
    if prev.Some? && prev.value.lastBeat > 0 && b.beat > prev.value.lastBeat + 1
    then [MissingBeat(prev.value.lastBeat, b.beat)] else []
  }

  datatype Walk = Walk(next: Checkpoint, found: seq<Finding>, rewound: bool)

  /** First write wins: a beat or position seen before must carry what it carried then. */
  function WalkBeat(c: Checkpoint, b: Beat): Walk {
    var o := Observed(b.seq_, b.head);
    if b.beat in c.recent && c.recent[b.beat] != o then
      Walk(c, [RewrittenBeat(b.beat, c.recent[b.beat], o)], true)
    else
      var next := if b.beat in c.recent then c else c.(recent := c.recent[b.beat := o]);
      if b.seq_ !in c.positions then
        Walk(next.(positions := c.positions[b.seq_ := b.head]), [], false)
      else if c.positions[b.seq_] != b.head then
        Walk(next, [RewrittenPosition(b.seq_, c.positions[b.seq_], b.beat, b.head)], true)
      else Walk(next, [], false)
  }

  /** The chain position never moves back while the beat number climbs. */
  function PositionFell(prev: Option<Checkpoint>, b: Beat): seq<Finding> {
    if prev.Some? && prev.value.lastSeq > 0 && b.seq_ < prev.value.lastSeq && b.beat >= prev.value.lastBeat
    then [SeqRegression(prev.value.lastSeq, b.beat, b.seq_)] else []
  }

  /** The newest beat becomes the last one unless it is behind or the history was rewound. */
  function Advance(c: Checkpoint, b: Beat, rewound: bool): Judgement {
    if b.beat < c.lastBeat then Judged(c, [HeadRegression(c.lastBeat, Some(b.beat))])
    else if rewound then Judged(c, [])
    else Judged(c.(lastBeat := b.beat, lastSeq := b.seq_, lastHead := b.head), [])
  }

  predicate Unmoved(prev: Option<Checkpoint>, next: Checkpoint) {
    prev.Some? && prev.value.lastBeat > 0 && prev.value.observedAt != ZERO_TIME
    && next.lastBeat == prev.value.lastBeat && next.lastSeq == prev.value.lastSeq
    && next.lastHead == prev.value.lastHead
  }

  /** An unmoved head keeps the time it was first observed at. */
  function Settle(prev: Option<Checkpoint>, next: Checkpoint, found: seq<Finding>, now: int): Judgement {
    var unmoved := Unmoved(prev, next);
    var stalled := if unmoved && now - prev.value.observedAt > STALE_AFTER
                   then [StalledFeed(next.lastBeat, prev.value.observedAt, now)] else [];
    Judged(next.(observedAt := if unmoved then prev.value.observedAt else next.observedAt,
                 recent := KeepNewest(next.recent, RECENT_CAP),
                 positions := KeepNewest(next.positions, RECENT_CAP)),
           found + stalled)
  }

  function Check(prev: Option<Checkpoint>, server: string, b: Beat, now: int): Judgement {
    if prev.Some? && prev.value.server != "" && NormalizeServer(prev.value.server) != NormalizeServer(server) then
      Failed(WrongMemory)
    else
      var blank := Carried(prev, server, now);
      if !Plausible(b) then
        var ending := if prev.Some? && prev.value.lastBeat > 0 then HeadRegression(prev.value.lastBeat, None) else EmptyFeed;
        Settle(prev, blank, [MalformedFeed(b), ending], now)
      else
        var walk := WalkBeat(blank, b);
        var fell := PositionFell(prev, b);
        var moved := Advance(walk.next, b, walk.rewound || fell != []);
        Settle(prev, moved.next, Gap(prev, b) + walk.found + fell + moved.found, now)
  }

  // ---------------------------------------------------------------------------------------------
  // CheckPush
  // ---------------------------------------------------------------------------------------------

  predicate AllHex(proof: List<Text>) {
    match proof
    case End => true
    case More(front, last) => last.Hex? && AllHex(front)
  }

  /** Whether a push can be checked at all. */
  predicate WellFormed(p: Push) {
    Count(p.proof) <= MAX_PROOF_HASHES
    && 1 <= p.beat <= MAX_BEAT_JUMP && 1 <= p.seq_ <= MAX_BEAT_JUMP && 1 <= p.size <= MAX_BEAT_JUMP
    && p.head.Hex? && p.root.Hex? && AllHex(p.proof)
  }

  /** What a text decodes to. Text that is no digest decodes to no hash any proof verifies against. */
  function HashOf(t: Text): Option<Hash> {
    if t.Hex? then Some(t.hash) else None
  }

  function HashList(proof: List<Text>): List<Hash>
    requires AllHex(proof)
  {
    match proof
    case End => End
    case More(front, last) => More(HashList(front), last.hash)
  }

  predicate TreeExtends(base: int, older: Text, p: Push)
    requires WellFormed(p)
  {
    HashOf(older).Some? && VerifyConsistency(base, p.size, HashOf(older).value, p.root.hash, HashList(p.proof))
  }

  function HeldSize(c: Option<Checkpoint>): int {
    if c.None? || c.value.root == BLANK then 0 else c.value.size
  }

  predicate HoldsBeat(c: Option<Checkpoint>, p: Push) {
    c.Some? && c.value.lastBeat == p.beat && c.value.lastSeq == p.seq_ && c.value.lastHead == p.head
  }

  predicate HoldsPush(c: Option<Checkpoint>, p: Push) {
    HoldsBeat(c, p) && c.value.root != BLANK && c.value.root == p.root && c.value.size == p.size
  }

  /** The memory a push that adopts nothing leaves standing. */
  function Held(prev: Option<Checkpoint>, installID: string): Checkpoint {
    if prev.Some? then prev.value
    else Checkpoint(installID, installID, 0, BLANK, 0, 0, BLANK, map[], map[], ZERO_TIME, None)
  }

  function WithoutStalled(found: seq<Finding>): seq<Finding> {
    if found == [] then []
    else
      var rest := WithoutStalled(found[..|found| - 1]);
      if found[|found| - 1].StalledFeed? then rest else rest + [found[|found| - 1]]
  }

  predicate First(prev: Option<Checkpoint>) {
    prev.None? || prev.value.root == BLANK
  }

  /** The tree rule, over the checkpoint and findings Check gave for the push's beat. */
  function HoldTree(prev: Option<Checkpoint>, installID: string, p: Push, next: Checkpoint, found: seq<Finding>): Judgement
    requires WellFormed(p)
  {
    var base := HeldSize(prev);
    if HoldsPush(prev, p) then Judged(Held(prev, installID), [])
    else if p.fromSize != base then Failed(ProofBase(base))
    else if p.size < base then Failed(Stale(base, p.size))
    else if !First(prev) && !TreeExtends(base, prev.value.root, p) then
      Judged(Held(prev, installID), found + [RewrittenTree(base, p.size, p.root, prev.value.root)])
    else if !HoldsBeat(Some(next), p) then Judged(Held(prev, installID), found)
    else if !First(prev) && p.beat == prev.value.lastBeat then
      Judged(Held(prev, installID), found + [DuplicateBeat(p.beat, prev.value.size, p.size)])
    else
      var adopted := next.(installID := installID, size := p.size, root := p.root);
      if First(prev) then Judged(adopted, found + [FirstRoot(p.size, p.root)]) else Judged(adopted, found)
  }

  function CheckPush(prev: Option<Checkpoint>, installID: string, p: Push, now: int): Judgement {
    if installID == "" || p.installID != installID then Failed(Malformed)
    else if prev.Some? && prev.value.installID != "" && prev.value.installID != installID then Failed(WrongMemory)
    else
      var checked := Check(prev, installID, p.AsBeat(), now);
      if checked.Failed? then checked
      else if !WellFormed(p) then Failed(Malformed)
      else HoldTree(prev, installID, p, checked.next, WithoutStalled(checked.found))
  }
}

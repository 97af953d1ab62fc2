/**
 Streamed reading of two pipes in common/copr_common/subprocess_live_output.py: two reader
 threads put chunks into one queue, and readchunks() yields them until both have said goodbye.
 */
module PipedProcess {

  newtype Byte = x: int | 0 <= x < 256

  datatype Fd = Stdout | Stderr

  /** What select() and read1() give a reader, in order. */
  datatype Read =
    | Quiet                    // nothing readable within the poll period
    | Bytes(data: seq<Byte>)   // read1() returned these bytes
    | Hangup                   // read1() returned no bytes
    | Trouble                  // select() reported an exceptional condition

  datatype Payload = Chunk(data: seq<Byte>) | Eof | Cut | Loop | Err

  /** One element of the queue; Sentinel is the None that ends iter(que.get, None). */
  datatype Msg = Item(fd: Fd, payload: Payload) | Sentinel

  datatype Reason = EOF | CUT | TIMEOUT | ERR

  /** Bytes come non-empty, and the pipe ends with a hangup or trouble and nothing after it. */
  predicate PipeScript(s: seq<Read>) {
    && s != []
    && (s[|s| - 1].Hangup? || s[|s| - 1].Trouble?)
    && forall i :: 0 <= i < |s| - 1 ==> s[i].Quiet? || (s[i].Bytes? && s[i].data != [])
  }

  /** Everything the first n reads brought. */
  function BytesUpTo(s: seq<Read>, n: nat): seq<Byte>
    requires n <= |s|
  {
    if n == 0 then []
    else if s[n - 1].Bytes? then BytesUpTo(s, n - 1) + s[n - 1].data
    else BytesUpTo(s, n - 1)
  }

  /** Everything read from the pipe. */
  function AllBytes(s: seq<Read>): seq<Byte> {
    BytesUpTo(s, |s|)
  }

  predicate IsChunk(m: Msg, fd: Fd) {
    m.Item? && m.fd == fd && m.payload.Chunk?
  }

  /** Everything the first n messages of the queue hold for one stream. */
  function Yielded(q: seq<Msg>, n: nat, fd: Fd): seq<Byte>
    requires n <= |q|
  {
    if n == 0 then []
    else if IsChunk(q[n - 1], fd) then Yielded(q, n - 1, fd) + q[n - 1].payload.data
    else Yielded(q, n - 1, fd)
  }

  function Sentinels(q: seq<Msg>, n: nat): nat
    requires n <= |q|
  {
    if n == 0 then 0 else Sentinels(q, n - 1) + if q[n - 1].Sentinel? then 1 else 0
  }

  /** Some item among the first n carries p. */
  predicate Says(q: seq<Msg>, n: nat, p: Payload)
    requires n <= |q|
  {
    n > 0 && (Says(q, n - 1, p) || (q[n - 1].Item? && q[n - 1].payload == p))
  }

  predicate EmptyItem(m: Msg) {
    m.Item? && m.payload == Chunk([])
  }

  /** What readchunks() asserts never to see. */
  predicate HasEmptyChunk(q: seq<Msg>) {
    Says(q, |q|, Chunk([]))
  }

  function Limited(data: seq<Byte>, maxlen: nat): seq<Byte> {
    if maxlen > 0 && |data| > maxlen then data[..maxlen] else data
  }

  /** As much of the data as the limit admits, no less; 0 is no limit. */
  lemma LimitedExactly(data: seq<Byte>, maxlen: nat)
    ensures Limited(data, maxlen) <= data
    ensures |Limited(data, maxlen)| == if maxlen == 0 || |data| < maxlen then |data| else maxlen
  {
  }

  /** The limit falls exactly between two chunks, and more bytes come. */
  predicate CutAtBoundary(s: seq<Read>, maxlen: nat) {
    maxlen > 0 && exists i :: 0 <= i < |s| && s[i].Bytes? && |BytesUpTo(s, i)| == maxlen
  }

  predicate Agree(q: seq<Msg>, r: seq<Msg>, n: nat) {
    n <= |q| && n <= |r| && forall k :: 0 <= k < n ==> q[k] == r[k]
  }

  lemma {:induction false} SamePrefix(q: seq<Msg>, r: seq<Msg>, n: nat, fd: Fd, p: Payload)
    requires Agree(q, r, n)
    ensures Yielded(q, n, fd) == Yielded(r, n, fd)
    ensures Says(q, n, p) <==> Says(r, n, p)
  {
    if n > 0 {
      SamePrefix(q, r, n - 1, fd, p);
    }
  }

  lemma Append(q: seq<Msg>, m: Msg, fd: Fd)
    ensures Yielded(q + [m], |q| + 1, fd)
            == if IsChunk(m, fd) then Yielded(q, |q|, fd) + m.payload.data else Yielded(q, |q|, fd)
    ensures HasEmptyChunk(q + [m]) <==> HasEmptyChunk(q) || EmptyItem(m)
  {
    SamePrefix(q, q + [m], |q|, fd, Chunk([]));
  }

  lemma {:induction false} BytesGrow(s: seq<Read>, i: nat, j: nat)
    requires i <= j <= |s|
    ensures BytesUpTo(s, i) <= BytesUpTo(s, j)
    decreases j - i
  {
    if i < j {
      BytesGrow(s, i, j - 1);
    }
  }

  // ---------------------------------------------------------------- one reader thread

  predicate BodyItem(m: Msg, fd: Fd) {
    m.Item? && m.fd == fd && (m.payload.Chunk? || m.payload.Loop?)
  }

  /** What a reader leaves in the queue: its own chunks, then one terminal item, then the sentinel. */
  predicate ReaderOutput(q: seq<Msg>, fd: Fd) {
    && |q| >= 2
    && q[|q| - 1].Sentinel?
    && (forall i :: 0 <= i < |q| - 2 ==> BodyItem(q[i], fd))
    && q[|q| - 2].Item? && q[|q| - 2].fd == fd
    && (q[|q| - 2].payload.Eof? || q[|q| - 2].payload.Cut? || q[|q| - 2].payload.Err?)
  }

  predicate NotFullBefore(s: seq<Read>, i: nat, maxlen: nat)
    requires i <= |s|
  {
    forall k :: 0 <= k < i && s[k].Bytes? ==> |BytesUpTo(s, k)| < maxlen
  }

  /** The first n reads gave one item each, which tells a quiet pipe from data; so the consumer never waits unasked. */
  predicate ItemByItem(s: seq<Read>, q: seq<Msg>, n: nat) {
    n <= |s| && n <= |q| && forall k :: 0 <= k < n ==> q[k].Item? && (q[k].payload.Loop? <==> s[k].Quiet?)
  }

  /** The reader has consumed s[..i], stayed within its limit and passed everything on. */
  predicate Reading(s: seq<Read>, i: nat, fd: Fd, maxlen: nat, q: seq<Msg>) {
    && i <= |s|
    && |q| == i && ItemByItem(s, q, i)
    && (forall k :: 0 <= k < |q| ==> BodyItem(q[k], fd))
    && !HasEmptyChunk(q)
    && Yielded(q, |q|, fd) == BytesUpTo(s, i)
    && (maxlen > 0 ==> |BytesUpTo(s, i)| <= maxlen && NotFullBefore(s, i, maxlen))
  }

  /** What a finished reader guarantees. */
  predicate Finished(s: seq<Read>, fd: Fd, maxlen: nat, q: seq<Msg>)
    requires s != []
  {
    && ReaderOutput(q, fd)
    && Yielded(q, |q|, fd) == Limited(AllBytes(s), maxlen)
    && (q[|q| - 2].payload.Cut? <==> maxlen > 0 && |AllBytes(s)| > maxlen)
    && (!q[|q| - 2].payload.Cut? ==> (q[|q| - 2].payload.Eof? <==> s[|s| - 1].Hangup?))
    && (HasEmptyChunk(q) <==> CutAtBoundary(s, maxlen))
    && ItemByItem(s, q, |q| - 2) && (!q[|q| - 2].payload.Cut? ==> |q| == |s| + 1)
  }

  /**
   _pipe_consumer_thread; maxlen 0 stands for no limit, as in the source.  The reader passes on
   exactly the bytes of the pipe up to the limit.  It says "cut" exactly when there was more, and
   puts an empty chunk exactly when a chunk had filled the limit before.
   */
  method PipeConsumerThread(s: seq<Read>, fd: Fd, maxlen: nat) returns (q: seq<Msg>)
    requires PipeScript(s)
    ensures Finished(s, fd, maxlen, q)
  {
    q := [];
    var counter := 0;
    var i := 0;
    while true
      invariant 0 <= i < |s|
      invariant Reading(s, i, fd, maxlen, q)
      invariant maxlen > 0 ==> counter == |BytesUpTo(s, i)|
      decreases |s| - i
    {
      if s[i].Trouble? {
        PipeEnds(s, i, fd, maxlen, q, Err);
        q := q + [Item(fd, Err)] + [Sentinel];
        return;
      }
      if s[i].Quiet? {
        PassOn(s, i, fd, maxlen, q, Loop);
        q := q + [Item(fd, Loop)];
        i := i + 1;
        continue;
      }
      if s[i].Hangup? {
        PipeEnds(s, i, fd, maxlen, q, Eof);
        q := q + [Item(fd, Eof)] + [Sentinel];
        return;
      }
      var chunk := s[i].data;
      if maxlen > 0 {
        var remains := maxlen - counter;
        counter := counter + |chunk|;
        if counter > maxlen {
          PipeCut(s, i, fd, maxlen, q);
          chunk := chunk[..remains];
          q := q + [Item(fd, Chunk(chunk))] + [Item(fd, Cut)] + [Sentinel];
          return;
        }
      }
      PassOn(s, i, fd, maxlen, q, Chunk(chunk));
      q := q + [Item(fd, Chunk(chunk))];
      i := i + 1;
    }
  }

  /** An ordinary item is passed on. */
  lemma PassOn(s: seq<Read>, i: nat, fd: Fd, maxlen: nat, q: seq<Msg>, p: Payload)
    requires PipeScript(s) && i < |s| && Reading(s, i, fd, maxlen, q)
    requires (p == Loop && s[i].Quiet?) || (s[i].Bytes? && p == Chunk(s[i].data))
    requires maxlen > 0 ==> |BytesUpTo(s, i + 1)| <= maxlen
    ensures i + 1 < |s| && Reading(s, i + 1, fd, maxlen, q + [Item(fd, p)])
  {
    Append(q, Item(fd, p), fd);
    if maxlen > 0 {
      StillNotFull(s, i, maxlen);
    }
  }

  lemma StillNotFull(s: seq<Read>, i: nat, maxlen: nat)
    requires i < |s| && NotFullBefore(s, i, maxlen)
    requires |BytesUpTo(s, i + 1)| <= maxlen && (s[i].Bytes? ==> s[i].data != [])
    ensures NotFullBefore(s, i + 1, maxlen)
  {
  }

  lemma Closing(q: seq<Msg>, fd: Fd, p: Payload)
    requires forall k :: 0 <= k < |q| ==> BodyItem(q[k], fd)
    requires p == Err || p == Eof || p == Cut
    ensures ReaderOutput(q + [Item(fd, p)] + [Sentinel], fd)
  {
    var r := q + [Item(fd, p)] + [Sentinel];
    assert |r| == |q| + 2 && r[..|q|] == q;
    forall i | 0 <= i < |r| - 2 ensures BodyItem(r[i], fd) {
      assert r[i] == q[i];
    }
  }

  lemma ClosingAddsNothing(q: seq<Msg>, fd: Fd, p: Payload)
    requires !p.Chunk?
    ensures Yielded(q + [Item(fd, p)] + [Sentinel], |q| + 2, fd) == Yielded(q, |q|, fd)
    ensures HasEmptyChunk(q + [Item(fd, p)] + [Sentinel]) <==> HasEmptyChunk(q)
  {
    Append(q, Item(fd, p), fd);
    Append(q + [Item(fd, p)], Sentinel, fd);
  }

  lemma NothingMore(s: seq<Read>, i: nat, maxlen: nat)
    requires PipeScript(s) && i < |s| && !s[i].Quiet? && !s[i].Bytes?
    requires maxlen > 0 ==> |BytesUpTo(s, i)| <= maxlen && NotFullBefore(s, i, maxlen)
    ensures i == |s| - 1 && AllBytes(s) == BytesUpTo(s, i) == Limited(AllBytes(s), maxlen)
    ensures !CutAtBoundary(s, maxlen)
  {
  }

  /** The reader is at the end of the pipe. */
  lemma PipeEnds(s: seq<Read>, i: nat, fd: Fd, maxlen: nat, q: seq<Msg>, p: Payload)
    requires PipeScript(s) && i < |s| && Reading(s, i, fd, maxlen, q)
    requires (s[i].Trouble? && p == Err) || (s[i].Hangup? && p == Eof)
    ensures Finished(s, fd, maxlen, q + [Item(fd, p)] + [Sentinel])
  {
    NothingMore(s, i, maxlen);
    Closing(q, fd, p);
    ClosingAddsNothing(q, fd, p);
  }

  /** The reader reaches the limit in the middle of a chunk, or had reached it before. */
  lemma PipeCut(s: seq<Read>, i: nat, fd: Fd, maxlen: nat, q: seq<Msg>)
    requires PipeScript(s) && i < |s| && s[i].Bytes? && Reading(s, i, fd, maxlen, q)
    requires maxlen > 0 && maxlen < |BytesUpTo(s, i)| + |s[i].data|
    ensures var chunk := s[i].data[..maxlen - |BytesUpTo(s, i)|];
            Finished(s, fd, maxlen, q + [Item(fd, Chunk(chunk))] + [Item(fd, Cut)] + [Sentinel])
  {
    var chunk := s[i].data[..maxlen - |BytesUpTo(s, i)|];
    var r := q + [Item(fd, Chunk(chunk))];
    LastChunk(s, i, fd, maxlen, q, chunk);
    Closing(r, fd, Cut);
    ClosingAddsNothing(r, fd, Cut);
    CutBytes(s, i, maxlen);
  }

  lemma LastChunk(s: seq<Read>, i: nat, fd: Fd, maxlen: nat, q: seq<Msg>, chunk: seq<Byte>)
    requires i < |s| && s[i].Bytes? && Reading(s, i, fd, maxlen, q)
    requires maxlen > 0 && maxlen < |BytesUpTo(s, i)| + |s[i].data|
    requires chunk == s[i].data[..maxlen - |BytesUpTo(s, i)|]
    ensures var r := q + [Item(fd, Chunk(chunk))];
            && (forall k :: 0 <= k < |r| ==> BodyItem(r[k], fd))
            && Yielded(r, |r|, fd) == BytesUpTo(s, i) + chunk
            && (HasEmptyChunk(r) <==> CutAtBoundary(s, maxlen))
  {
    var m := Item(fd, Chunk(chunk));
    Append(q, m, fd);
    if chunk == [] {
      assert |BytesUpTo(s, i)| == maxlen;
    } else {
      NoBoundary(s, i, maxlen);
    }
  }

  lemma CutBytes(s: seq<Read>, i: nat, maxlen: nat)
    requires i < |s| && s[i].Bytes? && |BytesUpTo(s, i)| <= maxlen < |BytesUpTo(s, i)| + |s[i].data|
    ensures |AllBytes(s)| > maxlen
    ensures AllBytes(s)[..maxlen] == BytesUpTo(s, i) + s[i].data[..maxlen - |BytesUpTo(s, i)|]
  {
    BytesGrow(s, i + 1, |s|);
  }

  lemma NoBoundary(s: seq<Read>, i: nat, maxlen: nat)
    requires i < |s| && s[i].Bytes? && |BytesUpTo(s, i)| < maxlen < |BytesUpTo(s, i)| + |s[i].data|
    requires NotFullBefore(s, i, maxlen)
    ensures !CutAtBoundary(s, maxlen)
  {
    forall k | i < k < |s| ensures |BytesUpTo(s, k)| > maxlen {
      BytesGrow(s, i + 1, k);
    }
  }

  // ---------------------------------------------------------------- the shared queue

  /** The first n messages of q are the first i of a and the first j of b, each in its own order. */
  predicate Interleaving(q: seq<Msg>, n: nat, a: seq<Msg>, i: nat, b: seq<Msg>, j: nat)
    requires n <= |q| && i <= |a| && j <= |b|
  {
    if n == 0 then i == 0 && j == 0
    else
      || (i > 0 && a[i - 1] == q[n - 1] && Interleaving(q, n - 1, a, i - 1, b, j))
      || (j > 0 && b[j - 1] == q[n - 1] && Interleaving(q, n - 1, a, i, b, j - 1))
  }

  predicate Interleaved(q: seq<Msg>, a: seq<Msg>, b: seq<Msg>) {
    Interleaving(q, |q|, a, |a|, b, |b|)
  }

  predicate Only(q: seq<Msg>, fd: Fd) {
    forall i :: 0 <= i < |q| && q[i].Item? ==> q[i].fd == fd
  }

  /** Whatever the interleaving, the queue carries each stream unchanged. */
  lemma {:induction false} QueueCarries(q: seq<Msg>, n: nat, a: seq<Msg>, i: nat, b: seq<Msg>, j: nat)
    requires n <= |q| && i <= |a| && j <= |b| && Interleaving(q, n, a, i, b, j)
    requires Only(a, Stdout) && Only(b, Stderr)
    ensures Yielded(q, n, Stdout) == Yielded(a, i, Stdout)
    ensures Yielded(q, n, Stderr) == Yielded(b, j, Stderr)
  {
    if n > 0 {
      if i > 0 && a[i - 1] == q[n - 1] && Interleaving(q, n - 1, a, i - 1, b, j) {
        QueueCarries(q, n - 1, a, i - 1, b, j);
      } else {
        QueueCarries(q, n - 1, a, i, b, j - 1);
      }
    }
  }

  lemma {:induction false} QueueHolds(q: seq<Msg>, n: nat, a: seq<Msg>, i: nat, b: seq<Msg>, j: nat, p: Payload)
    requires n <= |q| && i <= |a| && j <= |b| && Interleaving(q, n, a, i, b, j)
    ensures Sentinels(q, n) == Sentinels(a, i) + Sentinels(b, j)
    ensures Says(q, n, p) <==> Says(a, i, p) || Says(b, j, p)
  {
    if n > 0 {
      if i > 0 && a[i - 1] == q[n - 1] && Interleaving(q, n - 1, a, i - 1, b, j) {
        QueueHolds(q, n - 1, a, i - 1, b, j, p);
      } else {
        QueueHolds(q, n - 1, a, i, b, j - 1, p);
      }
    }
  }

  lemma {:induction false} SentinelsGrow(q: seq<Msg>, i: nat, j: nat)
    requires i <= j <= |q|
    ensures Sentinels(q, i) <= Sentinels(q, j)
    decreases j - i
  {
    if i < j {
      SentinelsGrow(q, i, j - 1);
    }
  }

  lemma {:induction false} YieldedGrows(q: seq<Msg>, i: nat, j: nat, fd: Fd)
    requires i <= j <= |q|
    ensures Yielded(q, i, fd) <= Yielded(q, j, fd)
    decreases j - i
  {
    if i < j {
      YieldedGrows(q, i, j - 1, fd);
    }
  }

  lemma {:induction false} SaysGrows(q: seq<Msg>, i: nat, j: nat, p: Payload)
    requires i <= j <= |q| && Says(q, i, p)
    ensures Says(q, j, p)
    decreases j - i
  {
    if i < j {
      SaysGrows(q, i, j - 1, p);
    }
  }

  /** A reader's own items hold no sentinel, no "cut" and no "error". */
  lemma {:induction false} BodySays(q: seq<Msg>, n: nat, fd: Fd, p: Payload)
    requires n <= |q| && (p == Cut || p == Err) && forall i :: 0 <= i < n ==> BodyItem(q[i], fd)
    ensures !Says(q, n, p) && Sentinels(q, n) == 0
  {
    if n > 0 {
      BodySays(q, n - 1, fd, p);
    }
  }

  /** A finished reader says "cut" or "error" only in its terminal item. */
  lemma ReaderSays(q: seq<Msg>, fd: Fd, p: Payload)
    requires ReaderOutput(q, fd) && (p == Cut || p == Err)
    ensures Says(q, |q|, p) <==> q[|q| - 2].payload == p
    ensures Sentinels(q, |q|) == 1
  {
    BodySays(q, |q| - 2, fd, p);
    assert Sentinels(q, |q| - 1) == 0;
    assert Says(q, |q| - 1, p) <==> q[|q| - 2].payload == p;
  }

  // ---------------------------------------------------------------- readchunks

  predicate LateAt(q: seq<Msg>, late: seq<bool>, i: nat)
    requires i < |q| == |late|
  {
    late[i] && q[i].Item?
  }

  /** The reasons to stop that the first n messages bring, in the order readchunks() meets them. */
  function Reasons(q: seq<Msg>, late: seq<bool>, n: nat): seq<Reason>
    requires n <= |q| == |late|
    decreases n, 1
  {
    if n == 0 then [] else Complaint(TimeoutFirst(q, late, n), q[n - 1])
  }

  function TimeoutFirst(q: seq<Msg>, late: seq<bool>, n: nat): seq<Reason>
    requires 0 < n <= |q| == |late|
    decreases n, 0
  {
    if LateAt(q, late, n - 1) then Reasons(q, late, n - 1) + [TIMEOUT] else Reasons(q, late, n - 1)
  }

  function Complaint(before: seq<Reason>, m: Msg): seq<Reason> {
    if m.Item? && m.payload.Cut? then before + [CUT]
    else if m.Item? && m.payload.Err? then before + [ERR]
    else before
  }

  /** The first reason counts; without one the process ended by itself. */
  function FirstReason(reasons: seq<Reason>): Reason {
    if reasons == [] then EOF else reasons[0]
  }

  /** A reason is never invented, and none goes unnoticed. */
  lemma {:induction false} ReasonsAreReal(q: seq<Msg>, late: seq<bool>, n: nat)
    requires n <= |q| == |late|
    ensures CUT in Reasons(q, late, n) <==> Says(q, n, Cut)
    ensures ERR in Reasons(q, late, n) <==> Says(q, n, Err)
    ensures EOF !in Reasons(q, late, n)
  {
    if n > 0 {
      ReasonsAreReal(q, late, n - 1);
    }
  }

  lemma {:induction false} TimeoutsAreReal(q: seq<Msg>, late: seq<bool>, n: nat)
    requires n <= |q| == |late|
    ensures TIMEOUT in Reasons(q, late, n) <==> exists i: nat :: i < n && LateAt(q, late, i)
  {
    if n > 0 {
      TimeoutsAreReal(q, late, n - 1);
      assert TIMEOUT in TimeoutFirst(q, late, n)
             <==> TIMEOUT in Reasons(q, late, n - 1) || LateAt(q, late, n - 1);
    }
  }

  /** Nothing happened at the first n messages that stops the process. */
  predicate Calm(q: seq<Msg>, late: seq<bool>, n: nat)
    requires n <= |q| == |late|
  {
    forall i: nat :: i < n && q[i].Item? ==> !late[i] && !q[i].payload.Cut? && !q[i].payload.Err?
  }

  /** Message i is the first one in trouble, and this is the trouble. */
  predicate FirstTrouble(q: seq<Msg>, late: seq<bool>, n: nat, i: nat, reason: Reason)
    requires n <= |q| == |late|
  {
    && i < n && Calm(q, late, i) && q[i].Item?
    && match reason
       case EOF => false
       case TIMEOUT => late[i]
       case CUT => !late[i] && q[i].payload.Cut?
       case ERR => !late[i] && q[i].payload.Err?
  }

  /** The stop reason is that of the first item in trouble; being late comes before what the item says. */
  lemma {:induction false} FirstReasonExactly(q: seq<Msg>, late: seq<bool>, n: nat, reason: Reason)
    requires n <= |q| == |late| && reason != EOF
    ensures Reasons(q, late, n) == [] <==> Calm(q, late, n)
    ensures FirstReason(Reasons(q, late, n)) == reason <==> exists i: nat :: FirstTrouble(q, late, n, i, reason)
  {
    if n > 0 {
      FirstReasonExactly(q, late, n - 1, reason);
      forall i: nat ensures FirstTrouble(q, late, n, i, reason) <==>
        FirstTrouble(q, late, n - 1, i, reason) || (i == n - 1 && FirstTrouble(q, late, n, n - 1, reason))
      {
      }
      if Calm(q, late, n - 1) {
        TroubleHere(q, late, n, reason);
      } else {
        LaterReasons(q, late, n);
        var before := n - 1;
        if i: nat :| FirstTrouble(q, late, before, i, reason) {
          assert FirstTrouble(q, late, n, i, reason);
        }
        if i: nat :| FirstTrouble(q, late, n, i, reason) {
          assert FirstTrouble(q, late, n - 1, i, reason);
        }
      }
    }
  }

  /** Once there is a reason, it stays the first one. */
  lemma LaterReasons(q: seq<Msg>, late: seq<bool>, n: nat)
    requires 0 < n <= |q| == |late| && Reasons(q, late, n - 1) != []
    ensures Reasons(q, late, n) != [] && FirstReason(Reasons(q, late, n)) == FirstReason(Reasons(q, late, n - 1))
  {
  }

  lemma TroubleHere(q: seq<Msg>, late: seq<bool>, n: nat, reason: Reason)
    requires 0 < n <= |q| == |late| && Calm(q, late, n - 1) && Reasons(q, late, n - 1) == [] && reason != EOF
    ensures Reasons(q, late, n) == [] <==> Calm(q, late, n)
    ensures FirstReason(Reasons(q, late, n)) == reason <==> FirstTrouble(q, late, n, n - 1, reason)
  {
  }

  /** What the caller gets for one stream. */
  function Output(out: seq<(seq<Byte>, Fd)>, fd: Fd): seq<Byte> {
    if out == [] then []
    else if out[|out| - 1].1 == fd then Output(out[..|out| - 1], fd) + out[|out| - 1].0
    else Output(out[..|out| - 1], fd)
  }

  lemma OutputAppend(out: seq<(seq<Byte>, Fd)>, data: seq<Byte>, src: Fd, fd: Fd)
    ensures Output(out + [(data, src)], fd) == if src == fd then Output(out, fd) + data else Output(out, fd)
  {
    assert (out + [(data, src)])[..|out|] == out;
  }

  /** The loop of readchunks() has dealt with the first n messages. */
  predicate Consumed(q: seq<Msg>, n: nat, out: seq<(seq<Byte>, Fd)>) {
    && n <= |q|
    && Output(out, Stdout) == Yielded(q, n, Stdout)
    && Output(out, Stderr) == Yielded(q, n, Stderr)
    && !Says(q, n, Chunk([]))
  }

  lemma ConsumeChunk(q: seq<Msg>, n: nat, out: seq<(seq<Byte>, Fd)>)
    requires n < |q| && Consumed(q, n, out)
    requires q[n].Item? && q[n].payload.Chunk? && q[n].payload.data != []
    ensures Consumed(q, n + 1, out + [(q[n].payload.data, q[n].fd)])
  {
    OutputAppend(out, q[n].payload.data, q[n].fd, Stdout);
    OutputAppend(out, q[n].payload.data, q[n].fd, Stderr);
  }

  predicate TwoSentinels(q: seq<Msg>) {
    q != [] && Sentinels(q, |q|) == 2 && q[|q| - 1].Sentinel?
  }

  /** Two sentinels in all and one at the very end: the queue lasts until the second is met. */
  lemma SecondIsLast(q: seq<Msg>, n: nat)
    requires n <= |q| && TwoSentinels(q)
    ensures Sentinels(q, n) == 2 <==> n == |q|
    ensures Sentinels(q, n) <= 2
  {
    SentinelsGrow(q, n, |q|);
    if n < |q| {
      SentinelsGrow(q, n, |q| - 1);
    }
  }

  class PosixPipedProcess {
    var stopreason: Reason
    var killed: bool

    constructor ()
      ensures stopreason == EOF && !killed
    {
      stopreason := EOF;
      killed := false;
    }

    /** The state after these reasons: the first one is kept, and any of them kills the process. */
    ghost predicate Heeded(reasons: seq<Reason>)
      reads this
    {
      && stopreason == FirstReason(reasons)
      && (killed <==> reasons != [])
      && EOF !in reasons
    }

    /** The stopreason setter, followed by _kill(), which acts only once. */
    method Stop(reason: Reason, ghost reasons: seq<Reason>)
      requires Heeded(reasons) && reason != EOF
      modifies this
      ensures Heeded(reasons + [reason])
    {
      if stopreason == EOF {
        stopreason := reason;
      }
      killed := true;
    }

    /** n messages are dealt with, round sentinels among them. */
    ghost predicate Progress(q: seq<Msg>, late: seq<bool>, n: nat, round: nat, out: seq<(seq<Byte>, Fd)>)
      requires |late| == |q|
      reads this
    {
      && TwoSentinels(q)
      && Consumed(q, n, out)
      && Sentinels(q, n) == round
      && Heeded(Reasons(q, late, n))
    }

    /**
     The body of the loop of readchunks() for one item, late being the answer of timeouted();
     ok is false when the assertion on an empty chunk fails.
     */
    method TakeItem(q: seq<Msg>, late: seq<bool>, n: nat, ghost round: nat, out: seq<(seq<Byte>, Fd)>)
      returns (more: seq<(seq<Byte>, Fd)>, ok: bool)
      requires n < |q| == |late| && q[n].Item? && round < 2 && Progress(q, late, n, round, out)
      modifies this
      ensures Heeded(Reasons(q, late, n + 1))
      ensures ok ==> n + 1 < |q| && Progress(q, late, n + 1, round, more)
      ensures !ok ==> more == out && EmptyItem(q[n])
    {
      SecondIsLast(q, n + 1);
      more, ok := out, true;
      var fd, chunk := q[n].fd, q[n].payload;
      ghost var reasons := Reasons(q, late, n);
      if late[n] {
        Stop(TIMEOUT, reasons);
        reasons := reasons + [TIMEOUT];
      }
      if chunk.Chunk? {
        if chunk.data == [] {
          ok := false;
          return;
        }
        ConsumeChunk(q, n, out);
        more := more + [(chunk.data, fd)];
        return;
      }
      if chunk.Loop? {
        return;
      }
      if chunk.Cut? || chunk.Err? {
        Stop(if chunk.Cut? then CUT else ERR, reasons);
        return;
      }
      assert chunk == Eof;
    }

    /** A sentinel ends one round. */
    lemma RoundEnds(q: seq<Msg>, late: seq<bool>, n: nat, round: nat, out: seq<(seq<Byte>, Fd)>)
      requires n < |q| == |late| && q[n].Sentinel? && Progress(q, late, n, round, out)
      ensures Progress(q, late, n + 1, round + 1, out)
    {
      assert Reasons(q, late, n + 1) == Reasons(q, late, n);
    }

    /** The inner loop of readchunks(): take items up to and including the next sentinel. */
    method ReadToSentinel(q: seq<Msg>, late: seq<bool>, n: nat, ghost round: nat, given: seq<(seq<Byte>, Fd)>)
      returns (out: seq<(seq<Byte>, Fd)>, ok: bool, taken: nat)
      requires |late| == |q| && round < 2 && Progress(q, late, n, round, given)
      modifies this
      ensures n < taken <= |q| && Heeded(Reasons(q, late, taken))
      ensures ok ==> Progress(q, late, taken, round + 1, out)
      ensures !ok ==> Consumed(q, taken - 1, out) && EmptyItem(q[taken - 1])
    {
      out, ok, taken := given, true, n;
      SecondIsLast(q, taken);
      while !q[taken].Sentinel?
        invariant n <= taken < |q| && ok
        invariant Progress(q, late, taken, round, out)
        decreases |q| - taken
      {
        out, ok := TakeItem(q, late, taken, round, out);
        taken := taken + 1;
        if !ok {
          return;
        }
      }
      RoundEnds(q, late, taken, round, out);
      taken := taken + 1;
    }

    /**
     The loop of readchunks() over the queue, where late[i] is the answer of timeouted() at
     message i.  taken counts the messages got from the queue.
     */
    method ReadChunks(q: seq<Msg>, late: seq<bool>)
      returns (out: seq<(seq<Byte>, Fd)>, ok: bool, taken: nat)
      requires |late| == |q| && TwoSentinels(q)
      modifies this
      ensures ok <==> !HasEmptyChunk(q)
      ensures taken <= |q| && Heeded(Reasons(q, late, taken))
      ensures ok ==> taken == |q| && Consumed(q, |q|, out)
      ensures !ok ==> 0 < taken && Consumed(q, taken - 1, out) && Says(q, taken, Chunk([]))
    {
      killed := false;
      stopreason := EOF;
      out := [];
      taken := 0;
      for round := 0 to 2
        invariant Progress(q, late, taken, round, out)
      {
        out, ok, taken := ReadToSentinel(q, late, taken, round, out);
        if !ok {
          SaysGrows(q, taken, |q|, Chunk([]));
          return;
        }
      }
      SecondIsLast(q, taken);
      ok := true;
    }
  }

  // ---------------------------------------------------------------- the whole of it

  /** The order in which the two threads get to put into the queue is arbitrary. */
  method Enqueue(a: seq<Msg>, b: seq<Msg>) returns (q: seq<Msg>)
    ensures Interleaved(q, a, b)
  {
    q := [];
    var i, j := 0, 0;
    while i < |a| || j < |b|
      invariant i <= |a| && j <= |b|
      invariant Interleaving(q, |q|, a, i, b, j)
      decreases |a| - i + |b| - j
    {
      var first: bool :| true;
      if i < |a| && (first || j == |b|) {
        StillInterleaved(q, q + [a[i]], |q|, a, i, b, j);
        q := q + [a[i]];
        i := i + 1;
      } else {
        StillInterleaved(q, q + [b[j]], |q|, a, i, b, j);
        q := q + [b[j]];
        j := j + 1;
      }
    }
  }

  lemma {:induction false} StillInterleaved(q: seq<Msg>, r: seq<Msg>, n: nat, a: seq<Msg>, i: nat, b: seq<Msg>, j: nat)
    requires Agree(q, r, n) && i <= |a| && j <= |b| && Interleaving(q, n, a, i, b, j)
    ensures Interleaving(r, n, a, i, b, j)
  {
    if n > 0 {
      if i > 0 && a[i - 1] == q[n - 1] && Interleaving(q, n - 1, a, i - 1, b, j) {
        StillInterleaved(q, r, n - 1, a, i - 1, b, j);
      } else {
        StillInterleaved(q, r, n - 1, a, i, b, j - 1);
      }
    }
  }

  /** What the caller of readchunks() is promised about one stream. */
  ghost predicate Delivered(out: seq<(seq<Byte>, Fd)>, fd: Fd, s: seq<Read>, maxlen: nat) {
    Output(out, fd) == Limited(AllBytes(s), maxlen)
  }

  predicate OverLimit(s: seq<Read>, maxlen: nat) {
    maxlen > 0 && |AllBytes(s)| > maxlen
  }

  predicate Broken(s: seq<Read>, maxlen: nat) {
    s != [] && s[|s| - 1].Trouble? && !OverLimit(s, maxlen)
  }

  /** A queue that two finished readers have filled. */
  ghost predicate FilledByBoth(q: seq<Msg>, stdout: seq<Read>, stderr: seq<Read>, stdoutLimit: nat, stderrLimit: nat)
    requires stdout != [] && stderr != []
  {
    exists a, b ::
      Interleaved(q, a, b) && Finished(stdout, Stdout, stdoutLimit, a) && Finished(stderr, Stderr, stderrLimit, b)
  }

  /** At some item of the queue the time was up. */
  ghost predicate LateItem(q: seq<Msg>, late: nat -> bool) {
    exists i: nat :: i < |q| && q[i].Item? && late(i)
  }

  /** The queue filled by two finished readers, in any order, meets the needs of the consumer. */
  lemma QueueOfTwo(q: seq<Msg>, a: seq<Msg>, b: seq<Msg>)
    requires Interleaved(q, a, b) && ReaderOutput(a, Stdout) && ReaderOutput(b, Stderr)
    ensures TwoSentinels(q)
    ensures Yielded(q, |q|, Stdout) == Yielded(a, |a|, Stdout)
    ensures Yielded(q, |q|, Stderr) == Yielded(b, |b|, Stderr)
    ensures HasEmptyChunk(q) <==> HasEmptyChunk(a) || HasEmptyChunk(b)
  {
    ReaderSays(a, Stdout, Cut);
    ReaderSays(b, Stderr, Cut);
    QueueCarries(q, |q|, a, |a|, b, |b|);
    QueueHolds(q, |q|, a, |a|, b, |b|, Chunk([]));
  }

  /** The reasons met in the queue come from the streams and the clock, and from nowhere else. */
  lemma ReasonsOfTwo(q: seq<Msg>, late: seq<bool>, a: seq<Msg>, b: seq<Msg>)
    requires Interleaved(q, a, b) && ReaderOutput(a, Stdout) && ReaderOutput(b, Stderr) && |late| == |q|
    ensures CUT in Reasons(q, late, |q|) <==> a[|a| - 2].payload.Cut? || b[|b| - 2].payload.Cut?
    ensures ERR in Reasons(q, late, |q|) <==> a[|a| - 2].payload.Err? || b[|b| - 2].payload.Err?
    ensures TIMEOUT in Reasons(q, late, |q|) <==> exists i: nat :: i < |q| && LateAt(q, late, i)
  {
    ReasonsAreReal(q, late, |q|);
    TimeoutsAreReal(q, late, |q|);
    QueueHolds(q, |q|, a, |a|, b, |b|, Cut);
    QueueHolds(q, |q|, a, |a|, b, |b|, Err);
    ReaderSays(a, Stdout, Cut);
    ReaderSays(a, Stdout, Err);
    ReaderSays(b, Stderr, Cut);
    ReaderSays(b, Stderr, Err);
  }

  /**
   Both threads and the consumer together, where late(i) is the answer of timeouted() when asked
   at message i.  Whatever order the threads put their items in and whenever the timeout strikes:
   the caller gets each stream up to its limit, unless a limit falls between two chunks of a
   stream that goes on, which is exactly when the assertion fails; what was yielded until then is
   a part of the stream up to its limit.
   */
  method RunStreams(stdout: seq<Read>, stderr: seq<Read>, stdoutLimit: nat, stderrLimit: nat,
        late: nat -> bool)
    returns (p: PosixPipedProcess, out: seq<(seq<Byte>, Fd)>, ok: bool, ghost q: seq<Msg>)
    requires PipeScript(stdout) && PipeScript(stderr)
    ensures ok <==> !CutAtBoundary(stdout, stdoutLimit) && !CutAtBoundary(stderr, stderrLimit)
    ensures ok ==> Delivered(out, Stdout, stdout, stdoutLimit) && Delivered(out, Stderr, stderr, stderrLimit)
    ensures Output(out, Stdout) <= Limited(AllBytes(stdout), stdoutLimit)
    ensures Output(out, Stderr) <= Limited(AllBytes(stderr), stderrLimit)
    ensures ok ==> (p.killed <==> p.stopreason != EOF)
    ensures ok ==> (p.stopreason == EOF <==>
                    && !LateItem(q, late)
                    && !OverLimit(stdout, stdoutLimit) && !OverLimit(stderr, stderrLimit)
                    && !Broken(stdout, stdoutLimit) && !Broken(stderr, stderrLimit))
    ensures ok && p.stopreason == CUT ==> OverLimit(stdout, stdoutLimit) || OverLimit(stderr, stderrLimit)
    ensures ok && p.stopreason == ERR ==> Broken(stdout, stdoutLimit) || Broken(stderr, stderrLimit)
    ensures ok && p.stopreason == TIMEOUT ==> LateItem(q, late)
    ensures FilledByBoth(q, stdout, stderr, stdoutLimit, stderrLimit)
  {
    var a := PipeConsumerThread(stdout, Stdout, stdoutLimit);
    var b := PipeConsumerThread(stderr, Stderr, stderrLimit);
    var queue := Enqueue(a, b);
    q := queue;
    QueueOfTwo(q, a, b);
    var answers := seq(|queue|, (i: nat) => late(i));
    p := new PosixPipedProcess();
    var taken;
    out, ok, taken := p.ReadChunks(queue, answers);
    if !ok {
      YieldedGrows(q, taken - 1, |q|, Stdout);
      YieldedGrows(q, taken - 1, |q|, Stderr);
    } else {
      LateAnswers(q, answers, late);
      ReasonsOfTwo(q, answers, a, b);
      FirstOfReasons(Reasons(q, answers, |q|));
    }
  }

  lemma LateAnswers(q: seq<Msg>, answers: seq<bool>, late: nat -> bool)
    requires |answers| == |q| && forall i :: 0 <= i < |q| ==> answers[i] == late(i)
    ensures LateItem(q, late) <==> exists i: nat :: i < |q| && LateAt(q, answers, i)
  {
    if i: nat :| i < |q| && q[i].Item? && late(i) {
      assert LateAt(q, answers, i);
    }
  }

  lemma FirstOfReasons(rs: seq<Reason>)
    requires EOF !in rs
    ensures FirstReason(rs) == EOF <==> rs == []
    ensures rs != [] ==> FirstReason(rs) in rs
    ensures rs == [] <==> CUT !in rs && ERR !in rs && TIMEOUT !in rs
  {
    if rs != [] {
      assert rs[0] in rs;
    }
  }

  /** The failing input: two chunks of one byte, and a limit of one byte. */
  lemma BoundaryInput()
    ensures var s := [Bytes([0]), Bytes([0]), Hangup];
            PipeScript(s) && CutAtBoundary(s, 1)
  {
    var s := [Bytes([0]), Bytes([0]), Hangup];
    assert BytesUpTo(s, 1) == BytesUpTo(s, 0) + [0];
    assert s[1].Bytes?;
  }
}

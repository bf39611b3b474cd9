/** The job logs of a clone job, as two stores.
    `LiveLogs`: per job, the history of raw messages and the queues of the
    subscribers streaming it as server-sent events (section 9.2 of the
    WHATWG HTML Living Standard).  `JobQueues`: per job, one queue of
    prefixed log lines and the generator that drains it.
    Asynchronous queues are modelled sequentially: each queue is a FIFO
    sequence, `put` appends, `get` takes the first element, and a
    subscriber's stream is driven by explicit `Subscribe` / `Drain` /
    `Disconnect` calls. */
module EventLog {
  import opened Wrappers
  import opened Text

  /** The identity of an `asyncio.Queue` object. */
  type QueueId = nat

  predicate Distinct(s: seq<QueueId>) {
    forall i, j :: 0 <= i < j < |s| ==> s[i] != s[j]
  }

  // ---------------------------------------------------------------------
  // Server-sent event frames

  /** One event whose data field is `message`. */
  function Frame(message: string): string {
    "data: " + message + "\n\n"
  }

  /** A message fits in one data line: it holds no line break. */
  predicate OneLine(message: string) {
    '\n' !in message && '\r' !in message
  }

  /** Reads one event back: a single `data: ` line closed by a blank line. */
  function ParseFrame(frame: string): (r: Option<string>)
    ensures r.Some? ==> OneLine(r.value)
  {
    if |frame| >= 8 && frame[..6] == "data: " && frame[|frame| - 2..] == "\n\n"
       && OneLine(frame[6..|frame| - 2])
    then Some(frame[6..|frame| - 2])
    else None
  }

  /** A one-line message reads back from its frame. */
  lemma FrameRoundTrip(message: string)
    requires OneLine(message)
    ensures ParseFrame(Frame(message)) == Some(message)
  {
    var f := Frame(message);
    assert f[..6] == "data: ";
    assert f[|f| - 2..] == "\n\n";
    assert f[6..|f| - 2] == message;
  }

  /** A message with a line break does not read back as one data line. */
  lemma FrameBreaksOnNewline(message: string)
    requires !OneLine(message)
    ensures ParseFrame(Frame(message)) != Some(message)
  {
  }

  /** The frames of a sequence of messages, one per message, in order. */
  function Frames(messages: seq<string>): (r: seq<string>)
    ensures |r| == |messages|
  {
    seq(|messages|, i requires 0 <= i < |messages| => Frame(messages[i]))
  }

  /** Reading the frames back gives the messages. */
  lemma FramesRoundTrip(messages: seq<string>)
    requires forall i :: 0 <= i < |messages| ==> OneLine(messages[i])
    ensures forall i :: 0 <= i < |messages| ==> ParseFrame(Frames(messages)[i]) == Some(messages[i])
  {
    forall i | 0 <= i < |messages|
      ensures ParseFrame(Frames(messages)[i]) == Some(messages[i])
    {
      FrameRoundTrip(messages[i]);
    }
  }

  lemma FramesConcat(a: seq<string>, b: seq<string>)
    ensures Frames(a + b) == Frames(a) + Frames(b)
  {
  }

  // ---------------------------------------------------------------------
  // The end marker

  const End: string := "[END]"

  /** The first index at or after `from` holding the end marker, or `|items|`. */
  function EndIndex(items: seq<string>, from: nat): (r: nat)
    requires from <= |items|
    ensures from <= r <= |items|
    ensures r < |items| ==> items[r] == End
    decreases |items| - from
  {
    if from == |items| || items[from] == End then from else EndIndex(items, from + 1)
  }

  lemma {:induction false} EndIndexFirst(items: seq<string>, from: nat)
    requires from <= |items|
    ensures forall k :: from <= k < EndIndex(items, from) ==> items[k] != End
    decreases |items| - from
  {
    if from < |items| && items[from] != End {
      EndIndexFirst(items, from + 1);
    }
  }

  lemma {:induction false} EndIndexIs(items: seq<string>, from: nat, k: nat)
    requires from <= k <= |items|
    requires k < |items| ==> items[k] == End
    requires forall j :: from <= j < k ==> items[j] != End
    ensures EndIndex(items, from) == k
    decreases k - from
  {
    if from < k {
      EndIndexIs(items, from + 1, k);
    }
  }

  /** What one drain of a subscriber's queue takes: everything up to and
      including the first end marker, or the whole queue when it has none. */
  function Taken(items: seq<string>): seq<string> {
    var e := EndIndex(items, 0);
    if e < |items| then items[..e + 1] else items
  }

  /** The drain stops at the first end marker and at no earlier message. */
  lemma TakenFacts(items: seq<string>)
    ensures Taken(items) == items[..|Taken(items)|]
    ensures forall k :: 0 <= k < |Taken(items)| - 1 ==> Taken(items)[k] != End
    ensures End in items <==> (Taken(items) != [] && Taken(items)[|Taken(items)| - 1] == End)
  {
    EndIndexFirst(items, 0);
  }

  // ---------------------------------------------------------------------
  // The live logs

  /** The state of the live logs.  `logs` and `listeners` are the two
      module dictionaries, `queues` the contents of every subscriber queue;
      `owner`, `start` and `delivered` record, per queue, its job, how much
      history its subscriber replayed and what it has taken since. */
  datatype Hub = Hub(
    logs: map<string, seq<string>>,
    listeners: map<string, seq<QueueId>>,
    queues: map<QueueId, seq<string>>,
    next: QueueId,
    owner: map<QueueId, string>,
    start: map<QueueId, nat>,
    delivered: map<QueueId, seq<string>>)

  /** `d.get(k, [])` */
  function Get<K, V>(d: map<K, seq<V>>, k: K): seq<V> {
    if k in d then d[k] else []
  }

  function History(h: Hub, job: string): seq<string> {
    Get(h.logs, job)
  }

  function ListenersOf(h: Hub, job: string): seq<QueueId> {
    Get(h.listeners, job)
  }

  function Delivered(h: Hub, q: QueueId): seq<string> {
    Get(h.delivered, q)
  }

  /** Queue `q` streams the history of `job`: what it replayed, what its
      subscriber took since and what is still queued are that history. */
  predicate Tracks(h: Hub, job: string, q: QueueId) {
    q in h.queues && q in h.owner && q in h.start && q in h.delivered
    && h.owner[q] == job
    && h.start[q] <= |History(h, job)|
    && h.delivered[q] + h.queues[q] == History(h, job)[h.start[q]..]
  }

  /** The invariant of the live logs: queue identities are fresh below
      `next`, no queue is listed twice, and every listed queue tracks its
      job's history. */
  predicate Coherent(h: Hub) {
    (forall q :: q in h.queues ==> q < h.next)
    && (forall job {:trigger Distinct(h.listeners[job])} ::
          job in h.listeners ==> Distinct(h.listeners[job]))
    && (forall job, k {:trigger Tracks(h, job, h.listeners[job][k])} ::
          job in h.listeners && 0 <= k < |h.listeners[job]| ==> Tracks(h, job, h.listeners[job][k]))
  }

  const EmptyHub: Hub := Hub(map[], map[], map[], 0, map[], map[], map[])

  /** `LiveLogger(job_id)`: creates the job's history and listener list
      when absent, never clearing existing ones. */
  function OpenHub(h: Hub, job: string): Hub {
    h.(logs := if job in h.logs then h.logs else h.logs[job := []],
       listeners := if job in h.listeners then h.listeners else h.listeners[job := []])
  }

  /** Puts `message` on every queue in `ids`. */
  function Fanout(queues: map<QueueId, seq<string>>, ids: seq<QueueId>, message: string): map<QueueId, seq<string>> {
    map q | q in queues :: if q in ids then queues[q] + [message] else queues[q]
  }

  /** `log(message)` once the job's history exists: the raw message is
      appended to the history and put on every listener queue of the job. */
  function LogHub(h: Hub, job: string, message: string): Hub
    requires job in h.logs
  {
    h.(logs := h.logs[job := h.logs[job] + [message]],
       queues := Fanout(h.queues, ListenersOf(h, job), message))
  }

  /** `subscribe(job_id)` up to its wait on the queue: a fresh queue is
      listed for the job, then the whole history is replayed as frames. */
  function SubscribeHub(h: Hub, job: string): (Hub, QueueId, seq<string>) {
    var q := h.next;
    (h.(listeners := h.listeners[job := ListenersOf(h, job) + [q]],
        queues := h.queues[q := []],
        next := q + 1,
        owner := h.owner[q := job],
        start := h.start[q := |History(h, job)|],
        delivered := h.delivered[q := []]),
     q,
     Frames(History(h, job)))
  }

  /** Removes the first occurrence of `x`. */
  function Remove(s: seq<QueueId>, x: QueueId): seq<QueueId> {
    var i := IndexOf(s, x, 0);
    if i == |s| then s else s[..i] + s[i + 1..]
  }

  function IndexOf(s: seq<QueueId>, x: QueueId, from: nat): (r: nat)
    requires from <= |s|
    ensures from <= r <= |s|
    ensures r < |s| ==> s[r] == x
    decreases |s| - from
  {
    if from == |s| || s[from] == x then from else IndexOf(s, x, from + 1)
  }

  lemma {:induction false} IndexOfFirst(s: seq<QueueId>, x: QueueId, from: nat)
    requires from <= |s|
    ensures forall k :: from <= k < IndexOf(s, x, from) ==> s[k] != x
    decreases |s| - from
  {
    if from < |s| && s[from] != x {
      IndexOfFirst(s, x, from + 1);
    }
  }

  /** In a list without repetitions, removing `x` leaves exactly the other
      elements, still without repetitions. */
  lemma RemoveFacts(s: seq<QueueId>, x: QueueId)
    requires Distinct(s)
    ensures Distinct(Remove(s, x))
    ensures forall y :: y in Remove(s, x) <==> y in s && y != x
  {
    var i := IndexOf(s, x, 0);
    IndexOfFirst(s, x, 0);
    if i < |s| {
      DropAtMembers(s, i);
      DropAtDistinct(s, i);
    }
  }

  /** Dropping the element at index `i` of a list without repetitions
      leaves exactly the other elements. */
  lemma DropAtMembers(s: seq<QueueId>, i: nat)
    requires Distinct(s) && i < |s|
    ensures forall y :: y in s[..i] + s[i + 1..] <==> y in s && y != s[i]
  {
    var r := s[..i] + s[i + 1..];
    forall y ensures y in r <==> y in s && y != s[i] {
      if y in r {
        var k :| 0 <= k < |r| && r[k] == y;
        if k < i { assert s[k] == y; } else { assert s[k + 1] == y; }
      }
      if y in s && y != s[i] {
        var k :| 0 <= k < |s| && s[k] == y;
        if k < i { assert r[k] == y; } else { assert r[k - 1] == y; }
      }
    }
  }

  lemma DropAtDistinct(s: seq<QueueId>, i: nat)
    requires Distinct(s) && i < |s|
    ensures Distinct(s[..i] + s[i + 1..])
  {
    var r := s[..i] + s[i + 1..];
    forall a, b | 0 <= a < b < |r| ensures r[a] != r[b] {
      var a' := if a < i then a else a + 1;
      var b' := if b < i then b else b + 1;
      assert r[a] == s[a'] && r[b] == s[b'];
    }
  }

  /** The clean-up of a subscriber: its queue is unlisted if still listed. */
  function DisconnectHub(h: Hub, job: string, q: QueueId): Hub {
    if q in ListenersOf(h, job) then h.(listeners := h.listeners[job := Remove(h.listeners[job], q)])
    else h
  }

  /** One resumption of a subscriber's wait loop: it takes and frames the
      queued messages up to and including the first end marker; on the end
      marker the stream ends and the subscriber disconnects. */
  function DrainHub(h: Hub, job: string, q: QueueId): (Hub, seq<string>, bool)
    requires q in h.queues
  {
    var taken := Taken(h.queues[q]);
    var ended := End in h.queues[q];
    var h1 := h.(queues := h.queues[q := h.queues[q][|taken|..]],
                 delivered := h.delivered[q := Delivered(h, q) + taken]);
    (if ended then DisconnectHub(h1, job, q) else h1, Frames(taken), ended)
  }

  /** `cleanup(job_id)`: forgets the job's history and listener list. */
  function CleanupHub(h: Hub, job: string): Hub {
    h.(logs := h.logs - {job}, listeners := h.listeners - {job})
  }

  /** Everything a subscriber has been sent: the replayed history, then
      what it took from its queue. */
  function Seen(h: Hub, q: QueueId): seq<string>
    requires q in h.owner && q in h.start
  {
    var hist := History(h, h.owner[q]);
    (if h.start[q] <= |hist| then hist[..h.start[q]] else hist) + Delivered(h, q)
  }

  /** Nothing is lost and nothing is repeated: a listening subscriber has
      been sent a prefix of its job's history, and its queue holds exactly
      the rest. */
  lemma SeenThenQueued(h: Hub, job: string, q: QueueId)
    requires Coherent(h)
    requires q in ListenersOf(h, job)
    ensures q in h.owner && q in h.start && q in h.queues
    ensures Seen(h, q) + h.queues[q] == History(h, job)
  {
    var k :| 0 <= k < |h.listeners[job]| && h.listeners[job][k] == q;
    assert Tracks(h, job, q);
    var hist := History(h, job);
    assert hist[..h.start[q]] + hist[h.start[q]..] == hist;
  }

  lemma EmptyHubCoherent()
    ensures Coherent(EmptyHub)
  {
  }

  lemma OpenCoherent(h: Hub, job: string)
    requires Coherent(h)
    ensures Coherent(OpenHub(h, job))
    ensures ListenersOf(OpenHub(h, job), job) == ListenersOf(h, job)
    ensures History(OpenHub(h, job), job) == History(h, job)
  {
    var h' := OpenHub(h, job);
    forall j | j in h'.listeners ensures Distinct(h'.listeners[j]) {
      if j in h.listeners {
        assert h'.listeners[j] == h.listeners[j];
      }
    }
    forall j, k | j in h'.listeners && 0 <= k < |h'.listeners[j]|
      ensures Tracks(h', j, h'.listeners[j][k])
    {
      assert j in h.listeners && h'.listeners[j] == h.listeners[j];
      assert Tracks(h, j, h.listeners[j][k]);
      assert History(h', j) == History(h, j);
    }
  }

  /** The message reaches every listener of its job, at the end of its
      queue, and no other queue. */
  lemma LogReachesListeners(h: Hub, job: string, message: string, q: QueueId)
    requires job in h.logs && q in h.queues
    ensures History(LogHub(h, job, message), job) == History(h, job) + [message]
    ensures LogHub(h, job, message).queues[q] ==
      (if q in ListenersOf(h, job) then h.queues[q] + [message] else h.queues[q])
  {
  }

  lemma LogCoherent(h: Hub, job: string, message: string)
    requires Coherent(h) && job in h.logs
    ensures Coherent(LogHub(h, job, message))
  {
    var h' := LogHub(h, job, message);
    var ids := ListenersOf(h, job);
    forall j, k | j in h'.listeners && 0 <= k < |h'.listeners[j]|
      ensures Tracks(h', j, h'.listeners[j][k])
    {
      var q := h.listeners[j][k];
      assert Tracks(h, j, q);
      var s := h.start[q];
      if j == job {
        assert q in ids;
        assert h'.queues[q] == h.queues[q] + [message];
        assert History(h', j) == History(h, j) + [message];
        assert (History(h, j) + [message])[s..] == History(h, j)[s..] + [message];
      } else {
        assert q !in ids by {
          forall m | 0 <= m < |ids| ensures ids[m] != q {
            assert Tracks(h, job, ids[m]);
          }
        }
        assert h'.queues[q] == h.queues[q];
        assert History(h', j) == History(h, j);
      }
    }
  }

  /** The new queue is fresh, and its subscriber has been sent the whole
      history, end markers included. */
  lemma SubscribeReplays(h: Hub, job: string)
    requires Coherent(h)
    ensures SubscribeHub(h, job).1 !in h.queues
    ensures SubscribeHub(h, job).1 in ListenersOf(SubscribeHub(h, job).0, job)
    ensures SubscribeHub(h, job).2 == Frames(History(h, job))
    ensures Seen(SubscribeHub(h, job).0, SubscribeHub(h, job).1) == History(h, job)
  {
    var (h', q, _) := SubscribeHub(h, job);
    assert h'.listeners[job][|h'.listeners[job]| - 1] == q;
    assert History(h', job) == History(h, job);
    assert History(h, job)[..|History(h, job)|] == History(h, job);
  }

  lemma NotListed(h: Hub)
    requires Coherent(h)
    ensures forall j, k :: j in h.listeners && 0 <= k < |h.listeners[j]| ==> h.listeners[j][k] != h.next
  {
    forall j, k | j in h.listeners && 0 <= k < |h.listeners[j]|
      ensures h.listeners[j][k] != h.next
    {
      assert Tracks(h, j, h.listeners[j][k]);
    }
  }

  lemma SubscribeCoherent(h: Hub, job: string)
    requires Coherent(h)
    ensures Coherent(SubscribeHub(h, job).0)
  {
    var (h', q, _) := SubscribeHub(h, job);
    NotListed(h);
    forall j | j in h'.listeners ensures Distinct(h'.listeners[j]) {
      if j in h.listeners {
        assert Distinct(h.listeners[j]);
      }
      if j == job && job in h.listeners {
        assert h'.listeners[j] == h.listeners[j] + [q];
      } else if j != job {
        assert h'.listeners[j] == h.listeners[j];
      }
    }
    forall j, k | j in h'.listeners && 0 <= k < |h'.listeners[j]|
      ensures Tracks(h', j, h'.listeners[j][k])
    {
      var p := h'.listeners[j][k];
      assert History(h', j) == History(h, j);
      if j != job || k < |ListenersOf(h, job)| {
        assert j in h.listeners && k < |h.listeners[j]| && h.listeners[j][k] == p;
        assert Tracks(h, j, p);
      }
    }
  }

  lemma DisconnectCoherent(h: Hub, job: string, q: QueueId)
    requires Coherent(h)
    ensures Coherent(DisconnectHub(h, job, q))
    ensures q !in ListenersOf(DisconnectHub(h, job, q), job)
    ensures forall p :: p != q ==> (p in ListenersOf(DisconnectHub(h, job, q), job) <==> p in ListenersOf(h, job))
  {
    if q in ListenersOf(h, job) {
      var h' := DisconnectHub(h, job, q);
      RemoveFacts(h.listeners[job], q);
      forall j, k | j in h'.listeners && 0 <= k < |h'.listeners[j]|
        ensures Tracks(h', j, h'.listeners[j][k])
      {
        var p := h'.listeners[j][k];
        assert p in h.listeners[j];
        var m :| 0 <= m < |h.listeners[j]| && h.listeners[j][m] == p;
        assert Tracks(h, j, h.listeners[j][m]);
      }
    }
  }

  /** One drain takes the queue up to its first end marker, and the stream
      ends exactly when the queue held one. */
  lemma DrainTakes(h: Hub, job: string, q: QueueId)
    requires q in h.queues
    ensures DrainHub(h, job, q).1 == Frames(Taken(h.queues[q]))
    ensures q in DrainHub(h, job, q).0.queues
    ensures h.queues[q] == Taken(h.queues[q]) + DrainHub(h, job, q).0.queues[q]
    ensures Delivered(DrainHub(h, job, q).0, q) == Delivered(h, q) + Taken(h.queues[q])
    ensures DrainHub(h, job, q).2 <==> End in h.queues[q]
    ensures !DrainHub(h, job, q).2 ==> DrainHub(h, job, q).0.queues[q] == []
  {
    var items := h.queues[q];
    TakenFacts(items);
    var taken := Taken(items);
    assert items == taken + items[|taken|..];
    if End !in items {
      assert taken == items;
    }
  }

  /** A drain that reaches the end marker unlists the subscriber's queue;
      one that does not leaves every listener list as it was. */
  lemma DrainUnlists(h: Hub, job: string, q: QueueId)
    requires Coherent(h) && q in h.queues
    ensures DrainHub(h, job, q).2 ==> q !in ListenersOf(DrainHub(h, job, q).0, job)
    ensures !DrainHub(h, job, q).2 ==> DrainHub(h, job, q).0.listeners == h.listeners
  {
    if End in h.queues[q] {
      var items := h.queues[q];
      var taken := Taken(items);
      var h1 := h.(queues := h.queues[q := items[|taken|..]],
                   delivered := h.delivered[q := Delivered(h, q) + taken]);
      assert h1.listeners == h.listeners;
      assert Coherent(h1) by {
        DrainCoherentBeforeDisconnect(h, q);
      }
      DisconnectCoherent(h1, job, q);
    }
  }

  /** Taking from a queue keeps what was taken plus what is left equal to
      what was queued, so every queue still tracks its history. */
  lemma DrainCoherentBeforeDisconnect(h: Hub, q: QueueId)
    requires Coherent(h) && q in h.queues
    ensures Coherent(h.(queues := h.queues[q := h.queues[q][|Taken(h.queues[q])|..]],
                        delivered := h.delivered[q := Delivered(h, q) + Taken(h.queues[q])]))
  {
    var items := h.queues[q];
    var taken := Taken(items);
    TakenFacts(items);
    var h1 := h.(queues := h.queues[q := items[|taken|..]],
                 delivered := h.delivered[q := Delivered(h, q) + taken]);
    forall j, k | j in h1.listeners && 0 <= k < |h1.listeners[j]|
      ensures Tracks(h1, j, h1.listeners[j][k])
    {
      var p := h.listeners[j][k];
      assert Tracks(h, j, p);
      if p == q {
        assert items == taken + items[|taken|..];
        assert Delivered(h, q) + taken + items[|taken|..] == h.delivered[q] + h.queues[q];
      }
    }
  }

  lemma DrainCoherent(h: Hub, job: string, q: QueueId)
    requires Coherent(h) && q in h.queues
    ensures Coherent(DrainHub(h, job, q).0)
  {
    DrainCoherentBeforeDisconnect(h, q);
    var items := h.queues[q];
    var taken := Taken(items);
    var h1 := h.(queues := h.queues[q := items[|taken|..]],
                 delivered := h.delivered[q := Delivered(h, q) + taken]);
    if End in items {
      DisconnectCoherent(h1, job, q);
    }
  }

  lemma CleanupCoherent(h: Hub, job: string)
    requires Coherent(h)
    ensures Coherent(CleanupHub(h, job))
    ensures History(CleanupHub(h, job), job) == [] && ListenersOf(CleanupHub(h, job), job) == []
  {
    var h' := CleanupHub(h, job);
    forall j, k | j in h'.listeners && 0 <= k < |h'.listeners[j]|
      ensures Tracks(h', j, h'.listeners[j][k])
    {
      assert Tracks(h, j, h.listeners[j][k]);
      assert History(h', j) == History(h, j);
    }
  }

  /** The frames of `messages[..i]` extended by the next one. */
  lemma FramesSnoc(messages: seq<string>, i: nat)
    requires i < |messages|
    ensures Frames(messages[..i + 1]) == Frames(messages[..i]) + [Frame(messages[i])]
  {
    assert messages[..i + 1] == messages[..i] + [messages[i]];
  }

  /** Fanout over one more queue, for a list without repetitions. */
  lemma FanoutSnoc(queues: map<QueueId, seq<string>>, ids: seq<QueueId>, i: nat, message: string)
    requires i < |ids| && ids[i] in queues && ids[i] !in ids[..i]
    ensures Fanout(queues, ids[..i + 1], message) ==
      Fanout(queues, ids[..i], message)[ids[i] := queues[ids[i]] + [message]]
  {
    assert ids[..i + 1] == ids[..i] + [ids[i]];
  }

  /** The `for queue in listeners: put(message)` loop. */
  method PutAll(queues: map<QueueId, seq<string>>, ids: seq<QueueId>, message: string)
    returns (qs: map<QueueId, seq<string>>)
    requires Distinct(ids)
    requires forall k :: 0 <= k < |ids| ==> ids[k] in queues
    ensures qs == Fanout(queues, ids, message)
  {
    qs := queues;
    var i := 0;
    while i < |ids|
      invariant 0 <= i <= |ids|
      invariant qs == Fanout(queues, ids[..i], message)
    {
      assert ids[i] !in ids[..i];
      FanoutSnoc(queues, ids, i, message);
      qs := qs[ids[i] := qs[ids[i]] + [message]];
      i := i + 1;
    }
    assert ids[..|ids|] == ids;
  }

  /** The replay loop of `subscribe`: one frame per message of the
      history, end markers included. */
  method Replay(history: seq<string>) returns (frames: seq<string>)
    ensures frames == Frames(history)
  {
    frames := [];
    var i := 0;
    while i < |history|
      invariant 0 <= i <= |history|
      invariant frames == Frames(history[..i])
    {
      FramesSnoc(history, i);
      frames := frames + [Frame(history[i])];
      i := i + 1;
    }
    assert history[..|history|] == history;
  }

  /** The wait loop of `subscribe` over the queued messages: it takes and
      frames each one and stops after the first end marker. */
  method TakeQueued(items: seq<string>) returns (frames: seq<string>, ended: bool, n: nat)
    ensures n == |Taken(items)|
    ensures frames == Frames(Taken(items))
    ensures ended == (End in items)
  {
    frames := [];
    ended := false;
    var i := 0;
    while i < |items| && !ended
      invariant 0 <= i <= |items|
      invariant frames == Frames(items[..i])
      invariant ended == (i > 0 && items[i - 1] == End)
      invariant forall k :: 0 <= k < i - 1 ==> items[k] != End
      invariant !ended ==> forall k :: 0 <= k < i ==> items[k] != End
    {
      FramesSnoc(items, i);
      frames := frames + [Frame(items[i])];
      ended := items[i] == End;
      i := i + 1;
    }
    if ended {
      EndIndexIs(items, 0, i - 1);
    } else {
      EndIndexIs(items, 0, |items|);
      assert items[..i] == items;
    }
    n := i;
    assert items[..i] == Taken(items);
  }

  // ---------------------------------------------------------------------
  // The live logs as an object

  /** The two module dictionaries of the live logs and the queues of the
      subscribers; the ghost fields record what each subscriber was sent. */
  class LiveLogs {
    var jobLogs: map<string, seq<string>>
    var listeners: map<string, seq<QueueId>>
    var queues: map<QueueId, seq<string>>
    var nextQueue: QueueId
    ghost var owner: map<QueueId, string>
    ghost var start: map<QueueId, nat>
    ghost var delivered: map<QueueId, seq<string>>

    ghost function State(): Hub
      reads this
    {
      Hub(jobLogs, listeners, queues, nextQueue, owner, start, delivered)
    }

    ghost predicate Valid()
      reads this
    {
      Coherent(State())
    }

    constructor()
      ensures State() == EmptyHub
      ensures Valid()
    {
      jobLogs := map[];
      listeners := map[];
      queues := map[];
      nextQueue := 0;
      owner := map[];
      start := map[];
      delivered := map[];
    }

    /** `LiveLogger(job_id)` */
    method Open(job: string)
      requires Valid()
      modifies this
      ensures Valid()
      ensures State() == OpenHub(old(State()), job)
    {
      OpenCoherent(State(), job);
      if job !in jobLogs {
        jobLogs := jobLogs[job := []];
      }
      if job !in listeners {
        listeners := listeners[job := []];
      }
    }

    /** `log(message)`: fails, changing nothing, when the job's history
        has been cleaned up. */
    method Log(job: string, message: string) returns (ok: bool)
      requires Valid()
      modifies this
      ensures Valid()
      ensures ok == (job in old(jobLogs))
      ensures State() == if ok then LogHub(old(State()), job, message) else old(State())
    {
      if job !in jobLogs {
        return false;
      }
      ghost var h := State();
      LogCoherent(h, job, message);
      ok := true;
      var ids := Get(listeners, job);
      forall k | 0 <= k < |ids| ensures ids[k] in queues {
        assert Tracks(h, job, ids[k]);
      }
      var qs := PutAll(queues, ids, message);
      jobLogs := jobLogs[job := jobLogs[job] + [message]];
      queues := qs;
    }

    /** `subscribe(job_id)` up to its first wait: the new queue is listed
        before the history is replayed. */
    method Subscribe(job: string) returns (q: QueueId, replay: seq<string>)
      requires Valid()
      modifies this
      ensures Valid()
      ensures State() == SubscribeHub(old(State()), job).0
      ensures q == SubscribeHub(old(State()), job).1
      ensures replay == SubscribeHub(old(State()), job).2
    {
      ghost var h := State();
      var hist := Get(jobLogs, job);
      q := nextQueue;
      nextQueue := nextQueue + 1;
      queues := queues[q := []];
      listeners := listeners[job := Get(listeners, job) + [q]];
      owner := owner[q := job];
      start := start[q := |hist|];
      delivered := delivered[q := []];
      replay := Replay(hist);
      assert State() == SubscribeHub(h, job).0;
      SubscribeCoherent(h, job);
    }

    /** The `finally` clause of `subscribe`: unlists the subscriber's
        queue if it is still listed. */
    method Disconnect(job: string, q: QueueId)
      requires Valid()
      modifies this
      ensures Valid()
      ensures State() == DisconnectHub(old(State()), job, q)
    {
      DisconnectCoherent(State(), job, q);
      if job in listeners && q in listeners[job] {
        listeners := listeners[job := Remove(listeners[job], q)];
      }
    }

    /** The wait loop of `subscribe`, resumed on the queued messages: each
        is taken and framed, and the stream ends after the end marker. */
    method Drain(job: string, q: QueueId) returns (frames: seq<string>, ended: bool)
      requires Valid() && q in queues
      modifies this
      ensures Valid()
      ensures (State(), frames, ended) == DrainHub(old(State()), job, q)
    {
      ghost var h := State();
      DrainCoherentBeforeDisconnect(h, q);
      DrainCoherent(h, job, q);
      var items := queues[q];
      var n;
      frames, ended, n := TakeQueued(items);
      TakenFacts(items);
      queues := queues[q := items[n..]];
      delivered := delivered[q := Get(delivered, q) + items[..n]];
      assert State() == h.(queues := h.queues[q := items[|Taken(items)|..]],
                           delivered := h.delivered[q := Delivered(h, q) + Taken(items)]);
      if ended {
        Disconnect(job, q);
      }
    }

    /** `cleanup(job_id)` */
    method Cleanup(job: string)
      requires Valid()
      modifies this
      ensures Valid()
      ensures State() == CleanupHub(old(State()), job)
    {
      CleanupCoherent(State(), job);
      jobLogs := jobLogs - {job};
      listeners := listeners - {job};
    }
  }

  // ---------------------------------------------------------------------
  // The per-job logger and its queue

  /** The message kinds of `log_message`, each with its own prefix. */
  const Kinds: seq<string> :=
    ["header", "success", "error", "asset", "ai", "sparkle", "page", "info", "sub-item", "code"]

  /** The prefix of a kind; an unknown kind is logged as information. */
  function Prefix(kind: string): (r: string)
    ensures kind !in Kinds ==> r == ">"
  {
    if kind == "header" then "\U{1F680}"
    else if kind == "success" then "\U{2705}"
    else if kind == "error" then "ERROR:"
    else if kind == "asset" then "\U{1F4E6}"
    else if kind == "ai" then "\U{1F9E0}"
    else if kind == "sparkle" then "\U{2728}"
    else if kind == "page" then "\U{1F4C4}"
    else if kind == "sub-item" then "- "
    else if kind == "code" then "CODE:"
    else ">"
  }

  /** The line `log_message` queues: prefix, a space and the message,
      stripped of surrounding white space. */
  function LogLine(kind: string, message: string): string {
    Trim(Prefix(kind) + " " + message)
  }

  /** Distinct kinds have distinct prefixes, so a reader of the log can
      tell the kind of every line; only `info` shares the default. */
  lemma PrefixesDistinct()
    ensures forall i, j :: 0 <= i < j < |Kinds| ==> Prefix(Kinds[i]) != Prefix(Kinds[j])
  {
  }

  /** Every prefix begins with a character that is not white space. */
  lemma PrefixStart(kind: string)
    ensures Prefix(kind) != [] && !IsWhitespace(Prefix(kind)[0])
  {
  }

  /** A message that does not end in white space is queued whole, after
      its prefix and one space. */
  lemma LogLineKeepsMessage(kind: string, message: string)
    requires message != [] && !IsWhitespace(message[|message| - 1])
    ensures LogLine(kind, message) == Prefix(kind) + " " + message
  {
    var s := Prefix(kind) + " " + message;
    PrefixStart(kind);
    assert s[0] == Prefix(kind)[0];
    assert SkipWhitespace(s, 0) == 0;
    assert TrimStart(s) == s;
    assert s[|s| - 1] == message[|message| - 1];
    assert TrailingWhitespace(s, |s|) == |s|;
  }

  /** A logger: the job and the queue it puts on. */
  datatype JobLogger = JobLogger(jobId: string, queue: QueueId)

  /** `job_queues` and the contents of every queue; `None` is the
      sentinel that ends the generator. */
  datatype Queues = Queues(
    byJob: map<string, QueueId>,
    contents: map<QueueId, seq<Option<string>>>,
    next: QueueId)

  /** Every job's queue exists, identities are fresh below `next`, and no
      two jobs share a queue. */
  predicate QueuesCoherent(s: Queues) {
    (forall j :: j in s.byJob ==> s.byJob[j] in s.contents)
    && (forall q :: q in s.contents ==> q < s.next)
    && (forall a, b :: a in s.byJob && b in s.byJob && a != b ==> s.byJob[a] != s.byJob[b])
  }

  const NoQueues: Queues := Queues(map[], map[], 0)

  /** `get_job_logger(job_id)`: the job's queue, created when absent. */
  function GetLogger(s: Queues, job: string): (Queues, JobLogger) {
    if job in s.byJob then (s, JobLogger(job, s.byJob[job]))
    else
      (s.(byJob := s.byJob[job := s.next], contents := s.contents[s.next := []], next := s.next + 1),
       JobLogger(job, s.next))
  }

  /** `log_message(message, type)`: the prefixed line goes on the logger's
      queue. */
  function PutLine(s: Queues, logger: JobLogger, kind: string, message: string): Queues
    requires logger.queue in s.contents
  {
    s.(contents := s.contents[logger.queue := s.contents[logger.queue] + [Some(LogLine(kind, message))]])
  }

  /** `cleanup_job_logger(job_id)` */
  function CleanupLogger(s: Queues, job: string): Queues {
    s.(byJob := s.byJob - {job})
  }

  /** The first index at or after `from` holding the sentinel, or `|items|`. */
  function SentinelIndex(items: seq<Option<string>>, from: nat): (r: nat)
    requires from <= |items|
    ensures from <= r <= |items|
    ensures r < |items| ==> items[r].None?
    decreases |items| - from
  {
    if from == |items| || items[from].None? then from else SentinelIndex(items, from + 1)
  }

  lemma {:induction false} SentinelIndexFirst(items: seq<Option<string>>, from: nat)
    requires from <= |items|
    ensures forall k :: from <= k < SentinelIndex(items, from) ==> items[k].Some?
    decreases |items| - from
  {
    if from < |items| && items[from].Some? {
      SentinelIndexFirst(items, from + 1);
    }
  }

  lemma {:induction false} SentinelIndexIs(items: seq<Option<string>>, from: nat, k: nat)
    requires from <= k <= |items|
    requires k < |items| ==> items[k].None?
    requires forall j :: from <= j < k ==> items[j].Some?
    ensures SentinelIndex(items, from) == k
    decreases k - from
  {
    if from < k {
      SentinelIndexIs(items, from + 1, k);
    }
  }

  function Texts(items: seq<Option<string>>): (r: seq<string>)
    ensures |r| == |items|
  {
    seq(|items|, i requires 0 <= i < |items| => items[i].GetOr(""))
  }

  /** The lines the generator yields from a queue: those before the
      first sentinel. */
  function Lines(items: seq<Option<string>>): seq<string> {
    Texts(items[..SentinelIndex(items, 0)])
  }

  /** `log_generator(job_id)` run until the queue is empty: nothing for
      an unknown job; otherwise the lines before the first sentinel, and
      on the sentinel the generator ends and cleans the job's queue up. */
  function Generate(s: Queues, job: string): (Queues, seq<string>, bool)
    requires job in s.byJob ==> s.byJob[job] in s.contents
  {
    if job !in s.byJob then (s, [], true)
    else
      var q := s.byJob[job];
      var items := s.contents[q];
      var n := SentinelIndex(items, 0);
      if n < |items| then (CleanupLogger(s.(contents := s.contents[q := items[n + 1..]]), job), Lines(items), true)
      else (s.(contents := s.contents[q := []]), Lines(items), false)
  }

  lemma NoQueuesCoherent()
    ensures QueuesCoherent(NoQueues)
  {
  }

  /** One queue per job: a second call returns the same logger and
      changes nothing, and a new queue is shared with no other job. */
  lemma GetLoggerReuses(s: Queues, job: string)
    requires QueuesCoherent(s)
    ensures QueuesCoherent(GetLogger(s, job).0)
    ensures GetLogger(GetLogger(s, job).0, job) == GetLogger(s, job)
    ensures GetLogger(s, job).1.queue in GetLogger(s, job).0.contents
    ensures job in s.byJob ==> GetLogger(s, job).0 == s
    ensures job !in s.byJob ==> GetLogger(s, job).1.queue !in s.contents
  {
    if job !in s.byJob {
      var s' := GetLogger(s, job).0;
      forall a, b | a in s'.byJob && b in s'.byJob && a != b
        ensures s'.byJob[a] != s'.byJob[b]
      {
        if a != job && b != job {
          assert s'.byJob[a] == s.byJob[a] && s'.byJob[b] == s.byJob[b];
        } else if a == job {
          assert s.byJob[b] in s.contents;
        } else {
          assert s.byJob[a] in s.contents;
        }
      }
    }
  }

  lemma PutLineCoherent(s: Queues, logger: JobLogger, kind: string, message: string)
    requires QueuesCoherent(s) && logger.queue in s.contents
    ensures QueuesCoherent(PutLine(s, logger, kind, message))
  {
  }

  lemma CleanupLoggerCoherent(s: Queues, job: string)
    requires QueuesCoherent(s)
    ensures QueuesCoherent(CleanupLogger(s, job))
    ensures job !in CleanupLogger(s, job).byJob
  {
  }

  /** The generator ends exactly on a sentinel (or at once for an unknown
      job), and then the job has no queue any more. */
  lemma GenerateFacts(s: Queues, job: string)
    requires QueuesCoherent(s)
    ensures QueuesCoherent(Generate(s, job).0)
    ensures job in s.byJob ==>
      (Generate(s, job).2 <==> None in s.contents[s.byJob[job]])
    ensures Generate(s, job).2 ==> job !in Generate(s, job).0.byJob
    ensures job !in s.byJob ==> Generate(s, job).1 == []
  {
    if job in s.byJob {
      var items := s.contents[s.byJob[job]];
      SentinelIndexFirst(items, 0);
      if None in items {
        var k :| 0 <= k < |items| && items[k] == None;
        assert SentinelIndex(items, 0) <= k;
      }
    }
  }

  /** A line logged on a job's queue is yielded by the job's generator,
      after the lines queued before it. */
  lemma LoggedLineIsYielded(s: Queues, job: string, kind: string, message: string)
    requires QueuesCoherent(s)
    requires var (s1, logger) := GetLogger(s, job); None !in s1.contents[logger.queue]
    ensures var (s1, logger) := GetLogger(s, job);
      Generate(PutLine(s1, logger, kind, message), job).1 ==
        Lines(s1.contents[logger.queue]) + [LogLine(kind, message)]
  {
    GetLoggerReuses(s, job);
    var (s1, logger) := GetLogger(s, job);
    var items := s1.contents[logger.queue];
    var items' := items + [Some(LogLine(kind, message))];
    forall j | 0 <= j < |items| ensures items[j].Some? {
      assert items[j] in items;
    }
    SentinelIndexIs(items, 0, |items|);
    SentinelIndexIs(items', 0, |items'|);
    assert items'[..|items'|] == items';
    assert items[..|items|] == items;
  }

  /** The generator's loop over the queued items. */
  method TakeLines(items: seq<Option<string>>) returns (lines: seq<string>, ended: bool, n: nat)
    ensures lines == Lines(items)
    ensures ended == (None in items)
    ensures n == (if ended then SentinelIndex(items, 0) + 1 else |items|)
  {
    lines := [];
    ended := false;
    var i := 0;
    while i < |items| && !ended
      invariant 0 <= i <= |items|
      invariant forall k :: 0 <= k < i - 1 ==> items[k].Some?
      invariant !ended ==> (forall k :: 0 <= k < i ==> items[k].Some?) && lines == Texts(items[..i])
      invariant ended ==> i > 0 && items[i - 1].None? && lines == Texts(items[..i - 1])
    {
      if items[i].None? {
        ended := true;
      } else {
        assert items[..i + 1] == items[..i] + [items[i]];
        lines := lines + [items[i].value];
      }
      i := i + 1;
    }
    if ended {
      SentinelIndexIs(items, 0, i - 1);
    } else {
      SentinelIndexIs(items, 0, |items|);
      assert items[..i] == items;
    }
    n := i;
  }

  /** `job_queues` and its queues as an object. */
  class JobQueues {
    var jobQueues: map<string, QueueId>
    var contents: map<QueueId, seq<Option<string>>>
    var nextQueue: QueueId

    ghost function State(): Queues
      reads this
    {
      Queues(jobQueues, contents, nextQueue)
    }

    ghost predicate Valid()
      reads this
    {
      QueuesCoherent(State())
    }

    constructor()
      ensures State() == NoQueues
      ensures Valid()
    {
      jobQueues := map[];
      contents := map[];
      nextQueue := 0;
    }

    /** `get_job_logger(job_id)` */
    method GetJobLogger(job: string) returns (logger: JobLogger)
      requires Valid()
      modifies this
      ensures Valid()
      ensures (State(), logger) == GetLogger(old(State()), job)
    {
      GetLoggerReuses(State(), job);
      if job !in jobQueues {
        jobQueues := jobQueues[job := nextQueue];
        contents := contents[nextQueue := []];
        nextQueue := nextQueue + 1;
      }
      logger := JobLogger(job, jobQueues[job]);
    }

    /** `log_message(message, type)` on a logger this object handed out. */
    method LogMessage(logger: JobLogger, message: string, kind: string)
      requires Valid() && logger.queue in contents
      modifies this
      ensures Valid()
      ensures State() == PutLine(old(State()), logger, kind, message)
    {
      PutLineCoherent(State(), logger, kind, message);
      var line := Trim(Prefix(kind) + " " + message);
      contents := contents[logger.queue := contents[logger.queue] + [Some(line)]];
    }

    /** `cleanup_job_logger(job_id)` */
    method CleanupJobLogger(job: string)
      requires Valid()
      modifies this
      ensures Valid()
      ensures State() == CleanupLogger(old(State()), job)
    {
      CleanupLoggerCoherent(State(), job);
      if job in jobQueues {
        jobQueues := jobQueues - {job};
      }
    }

    /** `log_generator(job_id)`, resumed on the queued items. */
    method LogGenerator(job: string) returns (lines: seq<string>, ended: bool)
      requires Valid()
      modifies this
      ensures Valid()
      ensures (State(), lines, ended) == Generate(old(State()), job)
    {
      GenerateFacts(State(), job);
      if job !in jobQueues {
        return [], true;
      }
      var q := jobQueues[job];
      var items := contents[q];
      var n;
      lines, ended, n := TakeLines(items);
      contents := contents[q := items[n..]];
      if ended {
        CleanupJobLogger(job);
      } else {
        assert items[n..] == [];
      }
    }
  }
}

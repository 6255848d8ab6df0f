/**
 * Agent memory (memory/stream.go, memory/void.go, memory.go): observations
 * of past exchanges and the context window built from them for the next
 * prompt.
 */
module Memory {
  import opened Thinker

  /** `thinker.Observation`: a committed exchange with its creation and last-access ids. */
  datatype Observation = Observation(created: nat, accessed: nat, query: Prompt, reply: Reply)

  function ExchangeOf(o: Observation): Exchange {
    Exchange(o.query, o.reply)
  }

  /** Each past exchange as its query followed by its reply, oldest first. */
  function Render(log: seq<Exchange>): (r: seq<Message>)
    ensures |r| == 2 * |log|
    ensures forall k :: 0 <= k < |log| ==>
      r[2 * k] == PromptMsg(log[k].query) && r[2 * k + 1] == ReplyMsg(log[k].reply)
  {
    if log == [] then []
    else Render(log[..|log| - 1]) + [PromptMsg(log[|log| - 1].query), ReplyMsg(log[|log| - 1].reply)]
  }

  /** Number of leading messages the stratum takes: one when it is non-empty. */
  function Offset(stratum: string): nat {
    if |stratum| > 0 then 1 else 0
  }

  /**
   * The window a stream memory builds: the stratum when non-empty, then
   * every committed exchange in commit order, then the incoming prompt.
   */
  function Window(stratum: string, log: seq<Exchange>, prompt: Prompt): (r: seq<Message>)
    ensures |r| == Offset(stratum) + 2 * |log| + 1
    ensures r[|r| - 1] == PromptMsg(prompt)
    ensures r[0].StratumMsg? <==> |stratum| > 0
    ensures |stratum| > 0 ==> r[0] == StratumMsg(stratum)
    ensures forall k :: 0 <= k < |log| ==>
      r[Offset(stratum) + 2 * k] == PromptMsg(log[k].query) &&
      r[Offset(stratum) + 2 * k + 1] == ReplyMsg(log[k].reply)
  {
    assert |log| > 0 ==> Render(log)[2 * 0] == PromptMsg(log[0].query);
    (if |stratum| > 0 then [StratumMsg(stratum)] else []) + Render(log) + [PromptMsg(prompt)]
  }

  /**
   * Committing never disturbs what an earlier window showed: the window
   * over a longer log agrees with the shorter one up to the shorter log's end.
   */
  lemma {:induction false} WindowExtends(stratum: string, log: seq<Exchange>, more: seq<Exchange>, p: Prompt, q: Prompt)
    ensures var n := Offset(stratum) + 2 * |log|;
      Window(stratum, log + more, q)[..n] == Window(stratum, log, p)[..n]
  {
    var n := Offset(stratum) + 2 * |log|;
    var w1 := Window(stratum, log + more, q);
    var w0 := Window(stratum, log, p);
    forall i | 0 <= i < n
      ensures w1[i] == w0[i]
    {
      if i >= Offset(stratum) {
        var k := (i - Offset(stratum)) / 2;
        assert (log + more)[k] == log[k];
        if (i - Offset(stratum)) % 2 == 0 {
          assert i == Offset(stratum) + 2 * k;
        } else {
          assert i == Offset(stratum) + 2 * k + 1;
        }
      }
    }
  }

  /** The exchanges the commit order refers to, oldest first. */
  function LogOf(heap: map<nat, Observation>, ids: seq<nat>): (r: seq<Exchange>)
    requires forall id :: id in ids ==> id in heap
    ensures |r| == |ids|
    ensures forall k :: 0 <= k < |ids| ==> r[k] == ExchangeOf(heap[ids[k]])
  {
    if ids == [] then []
    else LogOf(heap, ids[..|ids| - 1]) + [ExchangeOf(heap[ids[|ids| - 1]])]
  }

  /** Updating an entry that no commit refers to leaves the log as it was. */
  lemma {:induction false} LogOfUnreferenced(heap: map<nat, Observation>, ids: seq<nat>, id: nat, o: Observation)
    requires forall j :: j in ids ==> j in heap
    requires id !in ids
    ensures LogOf(heap[id := o], ids) == LogOf(heap, ids)
  {
    if ids != [] {
      LogOfUnreferenced(heap, ids[..|ids| - 1], id, o);
    }
  }

  /**
   * `memory.Stream`: every committed observation kept in a heap keyed by its
   * id, and the ids in commit order.
   */
  class Stream {
    var heap: map<nat, Observation>
    var commits: seq<nat>
    const stratum: string

    /** The heap holds exactly the committed ids. */
    ghost predicate Valid()
      reads this
    {
      forall id :: id in heap <==> id in commits
    }

    /** The committed exchanges in commit order, as the window renders them. */
    function Log(): (r: seq<Exchange>)
      reads this
      requires Valid()
      ensures |r| == |commits|
    {
      LogOf(heap, commits)
    }

    /** `NewStream(stratum)`: empty heap and commit order. */
    constructor (stratum: string)
      ensures this.stratum == stratum && heap == map[] && commits == []
      ensures Valid() && Log() == []
    {
      this.stratum := stratum;
      heap := map[];
      commits := [];
    }

    /**
     * `Commit(e)`: store the observation under its creation id and append
     * the id; with a fresh id, the log grows by exactly that exchange.
     */
    method Commit(e: Observation)
      modifies this
      requires Valid()
      ensures Valid()
      ensures heap == old(heap)[e.created := e] && commits == old(commits) + [e.created]
      ensures e.created !in old(heap) ==> Log() == old(Log()) + [ExchangeOf(e)]
    {
      heap := heap[e.created := e];
      commits := commits + [e.created];
      if e.created !in old(heap) {
        LogOfUnreferenced(old(heap), old(commits), e.created, e);
        assert commits[..|commits| - 1] == old(commits);
      }
    }

    /**
     * `Context(prompt)`: the window over the log, with every committed
     * observation restamped as accessed by a fresh clock reading; nothing
     * else in memory changes.
     */
    method Context(prompt: Prompt, clock: Clock) returns (window: seq<Message>)
      modifies this, clock
      requires Valid()
      ensures Valid() && commits == old(commits) && Restamped(heap, old(heap))
      ensures Log() == old(Log())
      ensures window == Window(stratum, old(Log()), prompt)
      ensures clock.now == old(clock.now) + |commits|
      ensures forall id :: id in commits ==> old(clock.now) <= heap[id].accessed < clock.now
    {
      var h, rendered := Restamp(heap, commits, clock);
      window := (if |stratum| > 0 then [StratumMsg(stratum)] else []) + rendered + [PromptMsg(prompt)];
      SameContentSameLog(h, heap, commits);
      heap := h;
    }
  }

  /**
   * The loop of `Stream.Context`: stamp each committed observation with a
   * fresh clock reading while rendering its query and reply in commit order.
   */
  method Restamp(h0: map<nat, Observation>, ids: seq<nat>, clock: Clock) returns (h: map<nat, Observation>, rendered: seq<Message>)
    modifies clock
    requires forall id :: id in ids ==> id in h0
    ensures Restamped(h, h0) && rendered == Render(LogOf(h0, ids))
    ensures clock.now == old(clock.now) + |ids|
    ensures StampedSince(h, ids, |ids|, old(clock.now), clock.now)
  {
    ghost var log0 := LogOf(h0, ids);
    var now0 := clock.now;
    h, rendered := h0, [];
    var i := 0;
    while i < |ids|
      invariant 0 <= i <= |ids|
      invariant Restamped(h, h0)
      invariant clock.now == now0 + i
      invariant StampedSince(h, ids, i, now0, clock.now)
      invariant rendered == Render(log0[..i])
    {
      var id := ids[i];
      var evidence := h[id];
      var t := clock.Tick();
      RestampStep(h, h0, ids, i, now0, t);
      RenderNext(h, h0, ids, i, rendered);
      h := h[id := evidence.(accessed := t)];
      rendered := rendered + [PromptMsg(evidence.query), ReplyMsg(evidence.reply)];
      i := i + 1;
    }
    assert log0[..i] == log0;
  }

  /** `h1` holds the entries of `h0`, each possibly with a new access id. */
  ghost predicate Restamped(h1: map<nat, Observation>, h0: map<nat, Observation>) {
    h1.Keys == h0.Keys && forall id :: id in h1 ==> h1[id] == h0[id].(accessed := h1[id].accessed)
  }

  /** The first `n` ids in `ids` were last accessed at a reading in `[lo, hi)`. */
  ghost predicate StampedSince(h: map<nat, Observation>, ids: seq<nat>, n: nat, lo: nat, hi: nat) {
    n <= |ids| && forall j :: 0 <= j < n ==> ids[j] in h && lo <= h[ids[j]].accessed < hi
  }

  lemma RestampStep(h: map<nat, Observation>, h0: map<nat, Observation>, ids: seq<nat>, i: nat, lo: nat, t: nat)
    requires Restamped(h, h0) && StampedSince(h, ids, i, lo, t) && i < |ids| && ids[i] in h && lo <= t
    ensures Restamped(h[ids[i] := h[ids[i]].(accessed := t)], h0)
    ensures StampedSince(h[ids[i] := h[ids[i]].(accessed := t)], ids, i + 1, lo, t + 1)
  {
  }

  /** Rendering a restamped observation renders the exchange it was committed with. */
  lemma RenderNext(h: map<nat, Observation>, h0: map<nat, Observation>, ids: seq<nat>, i: nat, rendered: seq<Message>)
    requires forall id :: id in ids ==> id in h0
    requires Restamped(h, h0) && i < |ids| && rendered == Render(LogOf(h0, ids)[..i])
    ensures rendered + [PromptMsg(h[ids[i]].query), ReplyMsg(h[ids[i]].reply)] == Render(LogOf(h0, ids)[..i + 1])
  {
    var log0 := LogOf(h0, ids);
    assert ExchangeOf(h[ids[i]]) == log0[i];
    RenderStep(log0, i);
  }

  /** One more exchange of the log renders one more query and reply. */
  lemma RenderStep(log: seq<Exchange>, i: nat)
    requires i < |log|
    ensures Render(log[..i + 1]) == Render(log[..i]) + [PromptMsg(log[i].query), ReplyMsg(log[i].reply)]
  {
    assert log[..i + 1][..i] == log[..i];
  }

  /** Restamping access ids does not change the log. */
  lemma {:induction false} SameContentSameLog(h1: map<nat, Observation>, h0: map<nat, Observation>, ids: seq<nat>)
    requires forall id :: id in ids ==> id in h0 && id in h1
    requires Restamped(h1, h0)
    ensures LogOf(h1, ids) == LogOf(h0, ids)
  {
    if ids != [] {
      SameContentSameLog(h1, h0, ids[..|ids| - 1]);
    }
  }

  /** `thinker.NewObservation(query, reply)`: a fresh creation id, access id zero. */
  method NewObservation(clock: Clock, query: Prompt, reply: Reply) returns (o: Observation)
    modifies clock
    ensures o == Observation(old(clock.now), 0, query, reply)
    ensures clock.now == old(clock.now) + 1
  {
    var id := clock.Tick();
    o := Observation(id, 0, query, reply);
  }

  /**
   * `memory.Void`: keeps nothing, so `Commit` and `Purge` change nothing.
   * Its window is the prompt's sections one by one when there is no stratum,
   * and otherwise the window of a stream memory that has never committed.
   */
  datatype Void = Void(stratum: string) {
    function Context(prompt: Prompt): (r: seq<Message>)
      ensures |stratum| == 0 ==> |r| == |prompt.parts| && forall i :: 0 <= i < |r| ==> r[i] == PartMsg(prompt.parts[i])
      ensures |stratum| > 0 ==> r == Window(stratum, [], prompt)
    {
      if |stratum| == 0 then ToSeq(prompt) else [StratumMsg(stratum), PromptMsg(prompt)]
    }
  }
}

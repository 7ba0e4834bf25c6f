/**
 * A deferrable update wrapping a callback: it is either run at once, handed
 * to the host's deferred-update queue with a stage, or held in a pending
 * list until released. A fingerprint keeps a duplicate request from being
 * queued again while the first one is unprocessed.
 */
module CallableUpdate {

  import opened Common
  import Php

  /** STAGE_PRESEND ('pre') and STAGE_POSTSEND ('post'). */
  datatype Stage = Presend | Postsend

  /** The callback: the built-in empty one, or a closure (its body is not modelled). */
  datatype Callback = EmptyCallback | Closure(id: int)

  /** `md5($fingerprint)`, kept symbolic over the string the argument converts to. */
  datatype Digest = Md5(arg: string)

  /**
   * A key of the queue list. A null fingerprint is stored under PHP's null
   * key "", which no md5 digest (32 hex digits) equals.
   */
  datatype QueueKey = NullKey | DigestKey(d: Digest)

  /** The origin: a value as set, or the list `getOrigin` turns a string into. */
  datatype Origin = OriginText(s: string) | OriginList(items: seq<string>)

  /** `json_encode` of the (wrapped) origin, kept symbolic. */
  datatype OriginJson = JsonOf(origin: Origin)

  /** The stage argument given to the host's `DeferredUpdates::addUpdate`; DefaultArg when none is passed. */
  datatype StageArg = PresendArg | PostsendArg | NullArg | DefaultArg

  /** One call of the host's `DeferredUpdates::addUpdate`. */
  datatype Handoff = Handoff(update: CallableUpdate, stage: StageArg)

  /** The route `pushUpdate` takes once the fingerprint is registered. */
  datatype Route = ToPending | ToDeferred | RunNow

  /** The fields of an update that `pushUpdate` and `doUpdate` read. */
  datatype Snapshot = Snapshot(callback: Callback, stage: Stage, isDeferrable: bool,
                               isCommandLine: Php.Value, isPending: bool, fingerprint: Option<Digest>)

  /**
   * The shared lists (`queueList` and `pendingUpdates`) together with what
   * left this class: the hand-offs to the host queue and the callbacks run.
   */
  datatype Queues = Queues(queueList: set<QueueKey>, pending: seq<CallableUpdate>,
                           handoffs: seq<Handoff>, ran: seq<Callback>)

  /** `getOrigin`: a string origin becomes a one-element list. */
  function WrapOrigin(o: Origin): (r: Origin)
    ensures r.OriginList?
    ensures o.OriginText? ==> r.items == [o.s]
    ensures o.OriginList? ==> r == o
  {
    match o
    case OriginText(s) => OriginList([s])
    case OriginList(_) => o
  }

  /** A second `getOrigin` changes nothing. */
  lemma WrapOriginIdempotent(o: Origin)
    ensures WrapOrigin(WrapOrigin(o)) == WrapOrigin(o)
  {
  }

  /** The queue-list key of a fingerprint. */
  function Key(fingerprint: Option<Digest>): (k: QueueKey)
    ensures fingerprint.None? <==> k == NullKey
    ensures fingerprint.Some? ==> k.d == fingerprint.value
  {
    if fingerprint.Some? then DigestKey(fingerprint.value) else NullKey
  }

  /** The duplicate guard: a non-null fingerprint already listed. */
  predicate Blocked(fingerprint: Option<Digest>, queueList: set<QueueKey>) {
    fingerprint.Some? && DigestKey(fingerprint.value) in queueList
  }

  /** Where an update goes once it is not a duplicate. */
  function RouteOf(isPending: bool, isDeferrable: bool, isCommandLine: bool): (r: Route)
    ensures r == ToPending <==> isPending && isDeferrable
    ensures r == ToDeferred <==> !isPending && !isCommandLine && isDeferrable
    ensures r == RunNow <==> !isDeferrable || (!isPending && isCommandLine)
  {
    if isPending && isDeferrable then ToPending
    else if !isCommandLine && isDeferrable then ToDeferred
    else RunNow
  }

  /** The stage `addUpdate` hands over, given which host constants are defined. */
  function StageArgFor(stage: Stage, postsendDefined: bool, presendDefined: bool): (r: StageArg)
    ensures r != DefaultArg
    ensures r == PostsendArg <==> stage == Postsend && postsendDefined
    ensures r == PresendArg <==> stage == Presend && presendDefined
    ensures r == NullArg <==> ((stage == Postsend && !postsendDefined) || (stage == Presend && !presendDefined))
  {
    if stage == Postsend && postsendDefined then PostsendArg
    else if stage == Presend && presendDefined then PresendArg
    else assert stage == Postsend || stage == Presend; NullArg
  }

  /** `doUpdate`: the callback runs and the fingerprint leaves the queue list. */
  function Run(q: Queues, v: Snapshot): (r: Queues)
    ensures Key(v.fingerprint) !in r.queueList
    ensures r.queueList == q.queueList - {Key(v.fingerprint)}
    ensures r.ran == q.ran + [v.callback]
    ensures r.pending == q.pending && r.handoffs == q.handoffs
  {
    q.(ran := q.ran + [v.callback], queueList := q.queueList - {Key(v.fingerprint)})
  }

  /** `pushUpdate` of update `u` whose fields are `v`. */
  function Push(q: Queues, u: CallableUpdate, v: Snapshot, postsendDefined: bool, presendDefined: bool): Queues {
    if Blocked(v.fingerprint, q.queueList) then q
    else
      var q1 := q.(queueList := q.queueList + {Key(v.fingerprint)});
      match RouteOf(v.isPending, v.isDeferrable, Php.ToBool(v.isCommandLine))
      case ToPending => q1.(pending := q1.pending + [u])
      case ToDeferred => q1.(handoffs := q1.handoffs + [Handoff(u, StageArgFor(v.stage, postsendDefined, presendDefined))])
      case RunNow => Run(q1, v)
  }

  /** The number of updates that have gone somewhere. */
  function Dispatched(q: Queues): nat {
    |q.pending| + |q.handoffs| + |q.ran|
  }

  /** Each push dispatches the update exactly once, unless it is a listed duplicate, which is dropped unchanged. */
  lemma PushOnce(q: Queues, u: CallableUpdate, v: Snapshot, post: bool, pre: bool)
    ensures Blocked(v.fingerprint, q.queueList) ==> Push(q, u, v, post, pre) == q
    ensures !Blocked(v.fingerprint, q.queueList) ==> Dispatched(Push(q, u, v, post, pre)) == Dispatched(q) + 1
  {
  }

  /** A null fingerprint never blocks a push. */
  lemma NullFingerprintNeverBlocks(q: Queues, v: Snapshot)
    requires v.fingerprint.None?
    ensures !Blocked(v.fingerprint, q.queueList)
  {
  }

  /**
   * While a fingerprinted update waits (pending or handed to the host
   * queue), pushing any update with the same fingerprint changes nothing.
   */
  lemma DuplicateDropped(q: Queues, u: CallableUpdate, v: Snapshot, u': CallableUpdate, v': Snapshot, post: bool, pre: bool)
    requires v.fingerprint.Some? && v'.fingerprint == v.fingerprint
    requires RouteOf(v.isPending, v.isDeferrable, Php.ToBool(v.isCommandLine)) != RunNow
    ensures var q1 := Push(q, u, v, post, pre);
      Push(q1, u', v', post, pre) == q1
  {
    var q1 := Push(q, u, v, post, pre);
    assert DigestKey(v.fingerprint.value) in q1.queueList;
  }

  /** An update that runs at once frees its fingerprint, so the same fingerprint can be pushed again. */
  lemma RunFreesFingerprint(q: Queues, u: CallableUpdate, v: Snapshot, post: bool, pre: bool)
    requires !Blocked(v.fingerprint, q.queueList)
    requires RouteOf(v.isPending, v.isDeferrable, Php.ToBool(v.isCommandLine)) == RunNow
    ensures var q1 := Push(q, u, v, post, pre);
      && !Blocked(v.fingerprint, q1.queueList)
      && q1.ran == q.ran + [v.callback]
      && q1.pending == q.pending && q1.handoffs == q.handoffs
  {
  }

  /** A push that is not dropped registers the fingerprint unless the update runs at once. */
  lemma PushRegisters(q: Queues, u: CallableUpdate, v: Snapshot, post: bool, pre: bool)
    requires !Blocked(v.fingerprint, q.queueList)
    ensures var r := RouteOf(v.isPending, v.isDeferrable, Php.ToBool(v.isCommandLine));
      var q1 := Push(q, u, v, post, pre);
      && (r != RunNow ==> q1.queueList == q.queueList + {Key(v.fingerprint)})
      && (r == ToPending ==> q1.pending == q.pending + [u] && q1.handoffs == q.handoffs)
      && (r == ToDeferred ==>
            (q1.pending == q.pending && q1.handoffs == q.handoffs + [Handoff(u, StageArgFor(v.stage, post, pre))]))
  {
  }

  /** The hand-offs `releasePendingUpdates` makes: each pending update, in order, without a stage. */
  function Released(pending: seq<CallableUpdate>): (r: seq<Handoff>)
    ensures |r| == |pending|
    ensures forall i :: 0 <= i < |pending| ==> r[i] == Handoff(pending[i], DefaultArg)
  {
    if pending == [] then [] else Released(pending[..|pending| - 1]) + [Handoff(pending[|pending| - 1], DefaultArg)]
  }

  /** `releasePendingUpdates` */
  function Release(q: Queues): (r: Queues)
    ensures r.pending == [] && r.queueList == q.queueList && r.ran == q.ran
    ensures r.handoffs == q.handoffs + Released(q.pending)
  {
    q.(handoffs := q.handoffs + Released(q.pending), pending := [])
  }

  /**
   * A released update reaches the host queue without its stage, whatever
   * stage it was given; its fingerprint stays listed until it runs.
   */
  lemma ReleaseDropsStage(q: Queues, u: CallableUpdate, v: Snapshot, post: bool, pre: bool)
    requires !Blocked(v.fingerprint, q.queueList)
    requires v.isPending && v.isDeferrable
    ensures var r := Release(Push(q, u, v, post, pre));
      && r.handoffs[|r.handoffs| - 1] == Handoff(u, DefaultArg)
      && Key(v.fingerprint) in r.queueList
      && r.pending == []
  {
    var q1 := Push(q, u, v, post, pre);
    assert q1.pending == q.pending + [u];
    var r := Release(q1);
    assert r.handoffs[|r.handoffs| - 1] == Released(q1.pending)[|q1.pending| - 1];
  }

  /** Releasing twice hands nothing over the second time. */
  lemma ReleaseIdempotent(q: Queues)
    ensures Release(Release(q)) == Release(q)
  {
    assert Released([]) == [];
    assert Release(q).handoffs + [] == Release(q).handoffs;
  }

  /** The shared (static) state of all callable updates and the host queue they feed. */
  class Registry {
    var queueList: set<QueueKey>
    var pending: seq<CallableUpdate>
    var handoffs: seq<Handoff>
    var ran: seq<Callback>
    /** Whether the host defines `DeferredUpdates::POSTSEND` and `DeferredUpdates::PRESEND`. */
    const postsendDefined: bool
    const presendDefined: bool

    constructor (postsendDefined: bool, presendDefined: bool)
      ensures State() == Queues({}, [], [], [])
      ensures this.postsendDefined == postsendDefined && this.presendDefined == presendDefined
    {
      queueList := {};
      pending := [];
      handoffs := [];
      ran := [];
      this.postsendDefined := postsendDefined;
      this.presendDefined := presendDefined;
    }

    function State(): Queues
      reads this
    {
      Queues(queueList, pending, handoffs, ran)
    }

    /** `releasePendingUpdates`: hands every pending update to the host queue, then clears the list. */
    method ReleasePendingUpdates()
      modifies this`handoffs, this`pending
      ensures State() == Release(old(State()))
    {
      var i := 0;
      while i < |pending|
        invariant 0 <= i <= |pending|
        invariant handoffs == old(handoffs) + Released(pending[..i])
        invariant pending == old(pending)
      {
        assert pending[..i + 1][..i] == pending[..i];
        handoffs := handoffs + [Handoff(pending[i], DefaultArg)];
        i := i + 1;
      }
      assert pending[..i] == pending;
      pending := [];
    }
  }

  class CallableUpdate {
    var callback: Callback
    var stage: Stage
    var isDeferrable: bool
    /** Stored as given; only its truthiness is read. */
    var isCommandLine: Php.Value
    var isPending: bool
    var origin: Origin
    var fingerprint: Option<Digest>
    const registry: Registry

    /** A null callback becomes the empty callback; the stage is post-send. */
    constructor (callback: Option<int>, registry: Registry)
      ensures this.callback == (if callback.None? then EmptyCallback else Closure(callback.value))
      ensures this.registry == registry
      ensures stage == Postsend && isDeferrable && isCommandLine == Php.Bool(false) && !isPending
      ensures origin == OriginText("") && fingerprint == None
    {
      this.callback := if callback.None? then EmptyCallback else Closure(callback.value);
      this.registry := registry;
      stage := Postsend;
      isDeferrable := true;
      isCommandLine := Php.Bool(false);
      isPending := false;
      origin := OriginText("");
      fingerprint := None;
    }

    function View(): Snapshot
      reads this
    {
      Snapshot(callback, stage, isDeferrable, isCommandLine, isPending, fingerprint)
    }

    method IsCommandLineMode(v: Php.Value)
      modifies this`isCommandLine
      ensures isCommandLine == v
    {
      isCommandLine := v;
    }

    method AsPresend()
      modifies this`stage
      ensures stage == Presend
    {
      stage := Presend;
    }

    method GetStage() returns (s: Stage)
      ensures s == stage
    {
      s := stage;
    }

    method SetCallback(id: int)
      modifies this`callback
      ensures callback == Closure(id)
    {
      callback := Closure(id);
    }

    /** Deprecated alias of `IsDeferrableUpdate`. */
    method EnabledDeferredUpdate(v: Php.Value)
      modifies this`isDeferrable
      ensures isDeferrable == Php.ToBool(v)
    {
      IsDeferrableUpdate(v);
    }

    method IsDeferrableUpdate(v: Php.Value)
      modifies this`isDeferrable
      ensures isDeferrable == Php.ToBool(v)
    {
      isDeferrable := Php.ToBool(v);
    }

    method MarkAsPending(v: Php.Value)
      modifies this`isPending
      ensures isPending == Php.ToBool(v)
    {
      isPending := Php.ToBool(v);
    }

    /** The fingerprint becomes the digest of the argument's string form, so it is never null again. */
    method SetFingerprint(v: Php.Value)
      modifies this`fingerprint
      ensures fingerprint == Some(Md5(Php.ToStr(v)))
    {
      fingerprint := Some(Md5(Php.ToStr(v)));
    }

    method GetFingerprint() returns (f: Option<Digest>)
      ensures f == fingerprint
    {
      f := fingerprint;
    }

    method SetOrigin(o: Origin)
      modifies this`origin
      ensures origin == o
    {
      origin := o;
    }

    /** `getOrigin`: wraps a string origin in a list (in place) and returns its JSON form. */
    method GetOrigin() returns (json: OriginJson)
      modifies this`origin
      ensures origin == WrapOrigin(old(origin)) && origin.OriginList?
      ensures json == JsonOf(origin)
    {
      if origin.OriginText? {
        origin := OriginList([origin.s]);
      }
      json := JsonOf(origin);
    }

    /** `doUpdate` */
    method DoUpdate()
      modifies this`origin, registry`ran, registry`queueList
      ensures registry.State() == Run(old(registry.State()), View())
      ensures origin == WrapOrigin(old(origin))
    {
      registry.ran := registry.ran + [callback];
      registry.queueList := registry.queueList - {Key(fingerprint)};
      var _ := GetOrigin();
    }

    /** `addUpdate`: hands this update to the host queue with the stage the host supports. */
    method AddUpdate()
      modifies registry`handoffs
      ensures registry.handoffs == old(registry.handoffs)
        + [Handoff(this, StageArgFor(stage, registry.postsendDefined, registry.presendDefined))]
    {
      var stageArg := NullArg;
      var s := GetStage();
      if s == Postsend && registry.postsendDefined {
        stageArg := PostsendArg;
      }
      if s == Presend && registry.presendDefined {
        stageArg := PresendArg;
      }
      registry.handoffs := registry.handoffs + [Handoff(this, stageArg)];
    }

    /** `pushUpdate` */
    method PushUpdate()
      modifies this`origin, registry
      ensures registry.State() == Push(old(registry.State()), this, View(), registry.postsendDefined, registry.presendDefined)
      ensures origin == WrapOrigin(old(origin))
    {
      var _ := GetOrigin();
      if fingerprint.Some? && DigestKey(fingerprint.value) in registry.queueList {
        return;
      }
      registry.queueList := registry.queueList + {Key(fingerprint)};
      if isPending && isDeferrable {
        registry.pending := registry.pending + [this];
        return;
      }
      if !Php.ToBool(isCommandLine) && isDeferrable {
        AddUpdate();
        return;
      }
      DoUpdate();
    }
  }
}

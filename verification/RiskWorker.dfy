/** The risk worker's loop over one partition: parse, process, publish, commit; on any failure seek back to
    the record and try again. */
module RiskWorker {
  import opened Text
  import opened Domain
  import opened Validation
  import opened Features
  import opened Scoring

  /** What the environment does to one attempt: the clock, the model, whether Redis answers, and whether the
      produced record and the offset commit land and are acknowledged. */
  datatype Env = Env(now: int, model: Model, redisUp: bool, lands: bool, acked: bool, commitLands: bool,
      commitAcked: bool)

  /** A decision for the record's event, or a quarantine record, has been written. */
  ghost predicate Answered(log: seq<PayValue>, i: nat, written: seq<Event>, quarantined: set<nat>)
    requires i < |log|
  {
    match ParsePayment(log[i])
    case None => i in quarantined
    case Some(e) => exists k | 0 <= k < |written| :: written[k].payload.sourceEventId == e.id
  }

  ghost predicate AnsweredBelow(log: seq<PayValue>, n: nat, written: seq<Event>, quarantined: set<nat>) {
    n <= |log| && forall i: nat | i < n :: Answered(log, i, written, quarantined)
  }

  /** Every decision written is the cached one. */
  ghost predicate FromCache(written: seq<Event>, cache: map<Uuid, Event>) {
    forall k | 0 <= k < |written| ::
        written[k].payload.sourceEventId in cache && cache[written[k].payload.sourceEventId] == written[k]
  }

  lemma StillAnswered(log: seq<PayValue>, n: nat, written: seq<Event>, quarantined: set<nat>, more: seq<Event>,
        also: set<nat>)
    requires AnsweredBelow(log, n, written, quarantined)
    ensures AnsweredBelow(log, n, written + more, quarantined + also)
  {
    hide ParsePayment;
    forall i: nat | i < n ensures Answered(log, i, written + more, quarantined + also) {
      assert Answered(log, i, written, quarantined);
      if ParsePayment(log[i]).Some? {
        var k :| 0 <= k < |written| && written[k].payload.sourceEventId == ParsePayment(log[i]).value.id;
        assert (written + more)[k] == written[k];
      }
    }
  }

  /** Processing returns the decision that the cache holds afterwards, and changes no cached decision. */
  lemma ProcessedIsCached(r: Redis, window: int, c: Settings, e: OutboxEvent, now: int, m: Model)
    requires e.payload.Created? && Keyed(r.decisions)
    ensures var (n, d) := Processed(r, window, c, e, now, m);
            && Keyed(n.decisions)
            && (forall s | s in r.decisions :: s in n.decisions && n.decisions[s] == r.decisions[s])
            && (d.Some? ==> d.value.payload.sourceEventId == e.id)
            && (d.Some? ==> e.id in n.decisions && n.decisions[e.id] == d.value)
  {
    hide Observe, Decision, LabelOk;
    ObserveLeavesDecisions(r, window, Observation(e, now));
    DecisionSource(c, e, Observe(r, window, Observation(e, now)).1, m);
  }

  /** The state of the worker and of its store. */
  datatype Progress = Progress(redis: Redis, committed: nat, position: nat, written: seq<Event>, quarantined: set<nat>)

  /** An answered record: committed, and passed once the commit is acknowledged. */
  function Committing(p: Progress, env: Env): Progress {
    if !env.acked then p
    else p.(committed := if env.commitLands || env.commitAcked then p.position + 1 else p.committed,
            position := if env.commitAcked then p.position + 1 else p.position)
  }

  /** One attempt on the record at the position. */
  function Attempted(p: Progress, window: int, c: Settings, log: seq<PayValue>, env: Env): Progress
    requires p.position < |log|
  {
    var lands := env.lands || env.acked;
    match ParsePayment(log[p.position])
    case None => Committing(p.(quarantined := if lands then p.quarantined + {p.position} else p.quarantined), env)
    case Some(e) =>
      if !env.redisUp then p
      else
        var (redis, d) := Processed(p.redis, window, c, e, env.now, env.model);
        if d.None? then p.(redis := redis)
        else Committing(p.(redis := redis, written := if lands then p.written + [d.value] else p.written), env)
  }

  function Attempts(p: Progress, window: int, c: Settings, log: seq<PayValue>, script: seq<Env>): Progress
    decreases |script|
  {
    if script == [] then p
    else
      var n := Attempts(p, window, c, log, script[..|script| - 1]);
      if n.position < |log| then Attempted(n, window, c, log, script[|script| - 1]) else n
  }

  /** Nothing but the environment keeps an attempt from answering: Redis is down for a record that parses, or the
      model's version label fits no envelope and no decision is cached. */
  predicate CanAnswer(redis: Redis, v: PayValue, env: Env) {
    match ParsePayment(v)
    case None => true
    case Some(e) =>
      && env.redisUp
      && (e.id in redis.decisions || env.model.Unavailable? || 1 <= |TrimSpace(env.model.version)| <= 255)
  }

  /** When the position and the offset move, and what is written: exactly one record, for exactly the records
      that can be answered, when the produce call lands. */
  lemma AttemptMoves(p: Progress, window: int, c: Settings, log: seq<PayValue>, env: Env)
    requires p.position < |log|
    ensures var n, v := Attempted(p, window, c, log, env), log[p.position];
            var can := CanAnswer(p.redis, v, env);
            && n.position == p.position + (if can && env.acked && env.commitAcked then 1 else 0)
            && n.committed == (if can && env.acked && (env.commitLands || env.commitAcked) then p.position + 1
                               else p.committed)
            && |n.written| == |p.written| + (if can && (env.lands || env.acked) && ParsePayment(v).Some? then 1 else 0)
            && n.quarantined == p.quarantined + (if (env.lands || env.acked) && ParsePayment(v).None? then {p.position}
                                                 else {})
            && (ParsePayment(v).None? || !env.redisUp ==> n.redis == p.redis)
  {
    var v := log[p.position];
    if ParsePayment(v).Some? && env.redisUp {
      ProcessedDecides(p.redis, window, c, ParsePayment(v).value, env.now, env.model);
    }
    hide ParsePayment, Processed, TrimSpace;
  }

  lemma ProcessedDecides(r: Redis, window: int, c: Settings, e: OutboxEvent, now: int, m: Model)
    requires e.payload.Created?
    ensures Processed(r, window, c, e, now, m).1.Some? <==>
              e.id in r.decisions || m.Unavailable? || 1 <= |TrimSpace(m.version)| <= 255
  {
    FallbackFits();
    hide Observe, Decision, SaveDecision, TrimSpace;
  }

  class RiskWorker {
    const store: FeatureStore
    const settings: Settings
    var committed: nat
    var position: nat
    var written: seq<Event>
    var quarantined: set<nat>

    constructor (store: FeatureStore, settings: Settings)
      requires ValidSettings(settings)
      ensures this.store == store && this.settings == settings && committed == position == 0 && written == [] &&
          quarantined == {}
    {
      this.store, this.settings := store, settings;
      committed, position, written, quarantined := 0, 0, [], {};
    }

    ghost predicate Valid(log: seq<PayValue>)
      reads this, store
    {
      && ValidSettings(settings) && Keyed(store.decisions) && FromCache(written, store.decisions)
      && AnsweredBelow(log, committed, written, quarantined) && AnsweredBelow(log, position, written, quarantined)
    }

    function State(): Progress
      reads this, store
    { Progress(store.View(), committed, position, written, quarantined) }

    /** _commit, then the next poll moves on; a failed commit seeks back. */
    method CommitOffset(log: seq<PayValue>, env: Env)
      requires Valid(log) && position < |log| && Answered(log, position, written, quarantined)
      modifies this`committed, this`position
      ensures Valid(log) && position == old(position) + if env.commitAcked then 1 else 0
      ensures committed == if env.commitLands || env.commitAcked then old(position) + 1 else old(committed)
    {
      hide Answered;
      assert AnsweredBelow(log, position + 1, written, quarantined);
      if env.commitLands || env.commitAcked { committed := position + 1; }
      if env.commitAcked { position := position + 1; }
    }

    /** _handle on the record at the position. Whatever fails, decisions already written stay, and the
        position moves only past an answered record. */
    method Handle(log: seq<PayValue>, env: Env)
      requires Valid(log) && position < |log|
      modifies this, store
      ensures Valid(log) && old(written) <= written && old(quarantined) <= quarantined
      ensures position == old(position) ||
          (position == old(position) + 1 && Answered(log, old(position), written, quarantined))
      ensures State() == Attempted(old(State()), store.window, settings, log, env)
    {
      hide ParsePayment, Source, Processed;
      var parsed := ParsePayment(log[position]);
      if parsed.None? {
        PublishInvalid(log, env);
        if env.acked { CommitOffset(log, env); }
        return;
      }
      if !env.redisUp { return; }
      ParsedIsSource(log[position]);
      assert parsed.value.payload.Created? by { SourceCreated(parsed.value); }
      ProcessedIsCached(store.View(), store.window, settings, parsed.value, env.now, env.model);
      var decision := Process(store, settings, parsed.value, env.now, env.model);
      if decision.None? { return; }
      PublishDecision(log, decision.value, env);
      if env.acked { CommitOffset(log, env); }
    }

    method PublishInvalid(log: seq<PayValue>, env: Env)
      requires Valid(log) && position < |log| && ParsePayment(log[position]).None?
      modifies this`quarantined
      ensures Valid(log) && quarantined == old(quarantined) + if env.lands || env.acked then {position} else {}
      ensures env.acked ==> Answered(log, position, written, quarantined)
    {
      hide ParsePayment;
      if env.lands || env.acked {
        StillAnswered(log, position, written, quarantined, [], {position});
        StillAnswered(log, committed, written, quarantined, [], {position});
        assert written + [] == written;
        quarantined := quarantined + {position};
      }
    }

    method PublishDecision(log: seq<PayValue>, decision: Event, env: Env)
      requires Valid(log) && position < |log| && ParsePayment(log[position]).Some?
      requires decision.payload.sourceEventId == ParsePayment(log[position]).value.id
      requires decision.payload.sourceEventId in store.decisions &&
          store.decisions[decision.payload.sourceEventId] == decision
      modifies this`written
      ensures Valid(log) && written == old(written) + if env.lands || env.acked then [decision] else []
      ensures env.acked ==> Answered(log, position, written, quarantined)
    {
      hide ParsePayment;
      if env.lands || env.acked {
        StillAnswered(log, position, written, quarantined, [decision], {});
        StillAnswered(log, committed, written, quarantined, [decision], {});
        assert quarantined + {} == quarantined;
        written := written + [decision];
        assert written[|written| - 1] == decision;
      }
    }

    /** run: handles the record at the position until the scripted attempts are used up. At any moment
        every record below the committed offset and below the position is answered, and all decisions
        written for one source event are the same. */
    method Run(log: seq<PayValue>, script: seq<Env>)
      requires Valid(log)
      modifies this, store
      ensures Valid(log) && old(written) <= written
      ensures forall i, j | 0 <= i < |written| && 0 <= j < |written| &&
          written[i].payload.sourceEventId == written[j].payload.sourceEventId ::
                written[i] == written[j]
      ensures State() == Attempts(old(State()), store.window, settings, log, script)
    {
      hide Answered, Attempted;
      for k := 0 to |script|
        invariant Valid(log) && old(written) <= written
        invariant State() == Attempts(old(State()), store.window, settings, log, script[..k])
      {
        assert script[..k + 1][..k] == script[..k];
        if position < |log| { Handle(log, script[k]); }
      }
      assert script[..|script|] == script;
    }
  }

  lemma SourceCreated(e: OutboxEvent)
    requires Source(e)
    ensures e.payload.Created?
  {
    hide ValidRequest;
  }
}
